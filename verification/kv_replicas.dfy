/**
 The key/value service on top of Raft: the state of a replica is what the apply
 loop of src/kvraft/server.go makes of the commands Raft handed to it.
 */
module KvReplicas {
  import opened RaftNode
  import opened RaftCluster
  import opened RaftRuns
  import opened KvServer
  import KvRendezvous

  /** The operations behind the commands; `decode` is the faithful codec of the RPC layer. */
  function Decoded(decode: Command -> Op, commands: seq<Command>): (ops: seq<Op>)
    ensures |ops| == |commands| && forall i :: 0 <= i < |ops| ==> ops[i] == decode(commands[i])
  {
    seq(|commands|, i requires 0 <= i < |commands| => decode(commands[i]))
  }

  ghost function Replica(
    decode: Command -> Op, n: nat, states: seq<Cluster>, labels: seq<Label>, s: nat, i: nat): Server
    requires IsRun(n, states, labels) && i < |states|
  {
    Run(Decoded(decode, Fed(n, states, labels, s, i)))
  }

  function Continue(s: Server, applied: nat, more: seq<Op>): Server
    decreases |more|
  {
    if more == [] then s else Continue(ApplyOp(s, more[0], applied + 1), applied + 1, more[1..])
  }

  lemma {:induction false} RunContinues(log: seq<Op>, more: seq<Op>)
    ensures Run(log + more) == Continue(Run(log), |log|, more)
    decreases |more|
  {
    if more == [] {
      assert log + more == log;
    } else {
      assert (log + [more[0]])[..|log|] == log;
      assert (log + [more[0]]) + more[1..] == log + more;
      RunContinues(log + [more[0]], more[1..]);
    }
  }

  /**
   Any two replicas, at any two moments of any run: with equally many commands
   applied they hold the same state, and otherwise the one that is behind gets to
   the other's state by applying what it has not seen yet.
   */
  lemma ReplicasAgree(
    decode: Command -> Op, n: nat, states: seq<Cluster>, labels: seq<Label>, i: nat, j: nat, a: nat, b: nat)
    requires SafeRun(n, states, labels) && i < |states| && j < |states| && a < n && b < n
    requires |Fed(n, states, labels, a, i)| <= |Fed(n, states, labels, b, j)|
    ensures var p, q := Fed(n, states, labels, a, i), Fed(n, states, labels, b, j);
            && Replica(decode, n, states, labels, b, j)
               == Continue(Replica(decode, n, states, labels, a, i), |p|, Decoded(decode, q[|p|..]))
            && (|p| == |q| ==> Replica(decode, n, states, labels, a, i) == Replica(decode, n, states, labels, b, j))
  {
    hide Run, Fed;
    var p, q := Fed(n, states, labels, a, i), Fed(n, states, labels, b, j);
    if i <= j {
      ServicesAgree(n, states, labels, i, j, a, b);
    } else {
      ServicesAgree(n, states, labels, j, i, b, a);
    }
    var rest := Decoded(decode, q[|p|..]);
    assert Decoded(decode, q) == Decoded(decode, p) + rest;
    RunContinues(Decoded(decode, p), rest);
  }

  /**
   The rendezvous may rely on what it assumes of Start: the call at step j of server
   `me` returns an index and a term that KvRendezvous.CanStart allows, if the service
   last called Start at step i (or never, with i == -1), has seen the term of step k,
   and has applied no more than Raft has delivered.
   */
  lemma StartIsAllowed(
    n: nat, states: seq<Cluster>, labels: seq<Label>, me: nat, i: int, k: nat, j: nat, s: KvRendezvous.System)
    requires SafeRun(n, states, labels) && me < n && -1 <= i < j < |labels| && k <= j
    requires labels[j].Start? && labels[j].s == me && (i >= 0 ==> labels[i].Start? && labels[i].s == me)
    requires |states[j].nodes| == |states[k].nodes| == n && (i >= 0 ==> |states[i].nodes| == n)
    requires s.lastIndex <= states[j].nodes[me].lastApplied + 1 && s.term <= states[k].nodes[me].term
    requires if i == -1 then s.startTerm == 0
             else s.startTerm == states[i].nodes[me].term && s.startIndex == |states[i].nodes[me].log| + 1
    ensures KvRendezvous.CanStart(s, |states[j].nodes[me].log| + 1, states[j].nodes[me].term)
  {
    assert IsStep(states[j], labels[j], states[j + 1]);
    hide IsRun, Next, NoPanic;
    TermsGrow(n, states, labels, k, j, me);
    LeaderTermPositive(n, states, labels, j, me);
    Bounds(n, states, labels, j, me);
    if i >= 0 {
      StartGuarantees(n, states, labels, i, j);
    }
  }
}
