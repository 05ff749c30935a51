/** `internal/server/cluster`: rendezvous placement. The hash that ranks nodes for a key is a parameter. */
module Rendezvous {
  import opened CacheTypes

  type Node = Text
  type Score = (Node, Key) -> nat

  /** No two nodes rank the same for the key. */
  ghost predicate NoTies(score: Score, nodes: set<Node>, key: Key) {
    forall m, n :: m in nodes && n in nodes && score(m, key) == score(n, key) ==> m == n
  }

  /** `n` ranks first among `nodes`. */
  ghost predicate RanksFirst(score: Score, nodes: set<Node>, key: Key, n: Node) {
    n in nodes && forall m :: m in nodes ==> score(n, key) <= score(m, key)
  }

  lemma {:induction false} SomeRanksFirst(score: Score, nodes: set<Node>, key: Key)
    requires nodes != {}
    ensures exists n :: RanksFirst(score, nodes, key, n)
    decreases nodes
  {
    var m :| m in nodes;
    if nodes == {m} {
      assert RanksFirst(score, nodes, key, m);
    } else {
      var rest := nodes - {m};
      assert nodes == rest + {m};
      SomeRanksFirst(score, rest, key);
      var n :| RanksFirst(score, rest, key, n);
      assert RanksFirst(score, nodes, key, if score(m, key) <= score(n, key) then m else n);
    }
  }

  /** The owner of a key. */
  ghost function Target(score: Score, nodes: set<Node>, key: Key): (n: Node)
    requires nodes != {}
    ensures RanksFirst(score, nodes, key, n)
  {
    SomeRanksFirst(score, nodes, key);
    var n :| RanksFirst(score, nodes, key, n);
    n
  }

  /** Adding a node leaves a key where it is or moves it to the new node. */
  lemma AddingMovesOnlyToTheNewNode(score: Score, nodes: set<Node>, key: Key, n: Node)
    requires nodes != {} && NoTies(score, nodes + {n}, key)
    ensures Target(score, nodes + {n}, key) in {Target(score, nodes, key), n}
  {
    var before, after := Target(score, nodes, key), Target(score, nodes + {n}, key);
    assert after != n ==> score(after, key) == score(before, key);
  }

  /** Removing a node moves only the keys that it owned. */
  lemma RemovingMovesOnlyItsKeys(score: Score, nodes: set<Node>, key: Key, n: Node)
    requires nodes - {n} != {} && NoTies(score, nodes, key)
    ensures Target(score, nodes, key) != n ==> Target(score, nodes - {n}, key) == Target(score, nodes, key)
  {
    var before, after := Target(score, nodes, key), Target(score, nodes - {n}, key);
    assert before != n ==> score(after, key) == score(before, key);
  }

  class Cluster {
    const secret: Text
    const addr: Node
    const nodes: set<Node>
    const score: Score

    /** `New`: the configured list becomes a set. */
    constructor (secret: Text, addr: Node, nodes: seq<Node>, score: Score)
      ensures this.secret == secret && this.addr == addr && this.score == score
      ensures forall n :: n in this.nodes <==> n in nodes
    {
      this.secret, this.addr, this.score := secret, addr, score;
      this.nodes := set n | n in nodes;
    }

    /** `TargetNode`: collects the nodes in whatever order the set yields them, sorts them by rank and
        takes the first. Without ties the result does not depend on that order. */
    method TargetNode(key: Key) returns (target: Node)
      requires nodes != {}
      ensures RanksFirst(score, nodes, key, target)
      ensures NoTies(score, nodes, key) ==> target == Target(score, nodes, key)
    {
      var all: seq<Node> := [];
      var rest := nodes;
      while rest != {}
        invariant rest <= nodes && (forall n :: n in nodes <==> n in rest || n in all)
        decreases rest
      {
        var n :| n in rest;
        all := all + [n];
        rest := rest - {n};
      }
      var n :| n in nodes;
      assert n in all;
      var a := new Node[|all|](i requires 0 <= i < |all| => all[i]);
      assert a[..] == all;
      Sort(a, score, key);
      forall m ensures m in nodes <==> m in a[..] {
        assert m in a[..] <==> m in multiset(all);
      }
      target := a[0];
      assert target in a[..];
      forall m | m in nodes ensures score(target, key) <= score(m, key) {
        var i :| 0 <= i < |a[..]| && a[..][i] == m;
      }
    }
  }

  /** `hrw.Sort`, in place. */
  method Sort(a: array<Node>, score: Score, key: Key)
    modifies a
    ensures forall i, j :: 0 <= i < j < a.Length ==> score(a[i], key) <= score(a[j], key)
    ensures multiset(a[..]) == multiset(old(a[..]))
  {
    for i := 0 to a.Length
      invariant forall j, k :: 0 <= j < i && j < k < a.Length ==> score(a[j], key) <= score(a[k], key)
      invariant multiset(a[..]) == multiset(old(a[..]))
    {
      var least := i;
      for j := i to a.Length
        invariant i <= least < a.Length
        invariant forall k :: i <= k < j ==> score(a[least], key) <= score(a[k], key)
      {
        if score(a[j], key) < score(a[least], key) {
          least := j;
        }
      }
      a[i], a[least] := a[least], a[i];
    }
  }
}
