/**
 * The process table: a singly linked list of `process` nodes rooted at a
 * sentinel `head` that holds the shell's own pid. `add_process` appends at
 * the tail, `get_process` finds the first node with a pid, and `put_bg` /
 * `put_fg` set a node's background flag.
 */
module Processes {

  /** One `struct process`. The saved terminal modes are not modelled. */
  class Process {
    var pid: int
    var background: bool
    var completed: bool
    var status: int
    var next: Process?

    /** A node that is not yet linked into any list. */
    constructor (pid: int, background: bool)
      ensures this.pid == pid && this.background == background
      ensures !completed && next == null
    {
      this.pid := pid;
      this.background := background;
      completed := false;
      next := null;
    }

    /** `put_bg`: the background flag becomes true; nothing else changes. */
    method PutBg()
      modifies this`background
      ensures background
      ensures pid == old(pid) && completed == old(completed) && status == old(status) && next == old(next)
    {
      background := true;
    }

    /** The flag update of `put_fg`: the background flag becomes false; nothing else changes. */
    method PutFg()
      modifies this`background
      ensures !background
      ensures pid == old(pid) && completed == old(completed) && status == old(status) && next == old(next)
    {
      background := false;
    }
  }

  /** The pids of a sequence of nodes, in order. */
  ghost function PidsOf(ns: seq<Process>): (r: seq<int>)
    reads ns
    ensures |r| == |ns|
    ensures forall i :: 0 <= i < |ns| ==> r[i] == ns[i].pid
  {
    if ns == [] then [] else [ns[0].pid] + PidsOf(ns[1..])
  }

  /** Index of the first occurrence of `pid`, or `|pids|` when it does not occur. */
  function FirstIndex(pids: seq<int>, pid: int): (r: nat)
    ensures r <= |pids|
    ensures r < |pids| ==> pids[r] == pid
    ensures forall j :: 0 <= j < r ==> pids[j] != pid
  {
    if pids == [] then 0
    else if pids[0] == pid then 0
    else 1 + FirstIndex(pids[1..], pid)
  }

  /**
   * Appending never changes which entry a pid already in the table finds,
   * and a pid that was absent finds the appended entry exactly when it is the new one's.
   */
  lemma FirstIndexAppend(pids: seq<int>, x: int, pid: int)
    ensures FirstIndex(pids, pid) < |pids| ==> FirstIndex(pids + [x], pid) == FirstIndex(pids, pid)
    ensures FirstIndex(pids, pid) == |pids| ==>
              FirstIndex(pids + [x], pid) == (if x == pid then |pids| else |pids| + 1)
  {
    var q := pids + [x];
    var r := FirstIndex(pids, pid);
    var s := FirstIndex(q, pid);
    assert forall j :: 0 <= j < |pids| ==> q[j] == pids[j];
    if r < |pids| {
      assert q[r] == pid;
      assert !(s > r);
      assert !(s < r);
    } else {
      assert forall j :: 0 <= j < |pids| ==> q[j] != pid;
      assert q[|pids|] == x;
    }
  }

  class ProcessTable {
    /** The sentinel node created by `init_shell`. */
    var head: Process
    /** The nodes in list order, `head` first. */
    ghost var nodes: seq<Process>
    ghost var Repr: set<object>

    ghost predicate Valid()
      reads this, Repr
    {
      this in Repr
      && (forall i :: 0 <= i < |nodes| ==> nodes[i] in Repr)
      && |nodes| > 0 && nodes[0] == head
      && (forall i :: 0 <= i < |nodes| - 1 ==> nodes[i].next == nodes[i + 1])
      && nodes[|nodes| - 1].next == null
      && (forall i, j :: 0 <= i < j < |nodes| ==> nodes[i] != nodes[j])
    }

    /** The pids of the table in list order. */
    ghost function Pids(): seq<int>
      reads this, Repr
      requires Valid()
    {
      PidsOf(nodes)
    }

    /** The node whose `next` is NULL, where `add_process` links a new node. */
    ghost function Last(): Process
      reads this
      requires |nodes| > 0
    {
      nodes[|nodes| - 1]
    }

    /** The list `init_shell` sets up: the sentinel alone, holding the shell's pid, in the foreground. */
    constructor (shellPgid: int)
      ensures Valid() && fresh(Repr)
      ensures nodes == [head]
      ensures head.pid == shellPgid && !head.background && !head.completed
    {
      var h := new Process(shellPgid, false);
      head := h;
      nodes := [h];
      Repr := {this, h};
    }

    /** `get_process`: the first node in list order whose pid matches, or null. */
    method GetProcess(pid: int) returns (p: Process?)
      requires Valid()
      ensures var i := FirstIndex(Pids(), pid);
              p == if i < |nodes| then nodes[i] else null
    {
      p := head;
      ghost var k := 0;
      while p != null && p.pid != pid
        invariant 0 <= k <= |nodes|
        invariant p == if k < |nodes| then nodes[k] else null
        invariant forall j :: 0 <= j < k ==> nodes[j].pid != pid
        decreases |nodes| - k
      {
        p := p.next;
        k := k + 1;
      }
      assert k == FirstIndex(Pids(), pid);
    }

    /**
     * `add_process`: walk `tail`/`trail` to the last node and link `p` after it.
     * The new list is the old one followed by `p`; no existing node changes
     * anything but the old last node's `next`.
     */
    method AddProcess(p: Process)
      requires Valid()
      requires p !in Repr && p.next == null
      modifies this`nodes, this`Repr, Last()`next
      ensures Valid()
      ensures head == old(head)
      ensures nodes == old(nodes) + [p]
      ensures Repr == old(Repr) + {p}
      ensures Pids() == old(Pids()) + [p.pid]
      ensures forall i :: 0 <= i < |old(nodes)| ==>
                nodes[i].background == old(nodes[i].background) && nodes[i].completed == old(nodes[i].completed)
                && nodes[i].status == old(nodes[i].status)
    {
      var tail: Process? := head;
      var trail: Process := head;
      tail := head.next;
      ghost var k := 0;
      while tail != null
        invariant 0 <= k < |nodes|
        invariant trail == nodes[k]
        invariant tail == if k + 1 < |nodes| then nodes[k + 1] else null
        decreases |nodes| - k
      {
        tail := tail.next;
        trail := trail.next;
        k := k + 1;
      }
      trail.next := p;
      nodes := nodes + [p];
      Repr := Repr + {p};
    }
  }
}
