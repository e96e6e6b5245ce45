/**
 The inductive invariant of a Raft cluster.  It is stated over the cluster and
 a history that only the proof keeps: who won each term, the log of each term's
 leader, every vote with the log the voter had, and how much of a term's log
 each server has held in that term.  No step of the cluster reads the history.
 */
module RaftInvariant {
  import opened RaftNode
  import opened RaftCluster

  datatype Election = Election(leader: nat, voters: set<nat>, log0: Log)

  datatype Vote = Vote(candidate: nat, voterLog: Log, lastTerm: int, lastIndex: int)

  /** tlog[T] is the log of the leader of term T, which only grows; log0 is how it began. */
  datatype History = History(
    elections: map<int, Election>,
    tlog: map<int, Log>,
    votes: map<(nat, int), Vote>,
    acks: map<(nat, int), nat>)

  // ------------------------------------------------------------ predicates

  /** The two logs have the same first k entries. */
  ghost predicate Agree(a: Log, b: Log, k: nat) {
    k <= |a| && k <= |b| && forall i :: 0 <= i < k ==> a[i] == b[i]
  }

  /** Each entry, with all that precedes it, is how the leader of its term had it. */
  ghost predicate GoodLog(h: History, log: Log) {
    forall i :: 0 <= i < |log| ==>
      log[i].index == i && log[i].term in h.tlog && Agree(log, h.tlog[log[i].term], i + 1)
  }

  ghost predicate TermsAtMost(log: Log, term: int) {
    forall i :: 0 <= i < |log| ==> log[i].term <= term
  }

  ghost predicate LogOk(h: History, log: Log, term: int) {
    GoodLog(h, log) && TermsAtMost(log, term)
  }

  ghost predicate ElectionOk(h: History, T: int, n: nat)
    requires T in h.elections && T in h.tlog
  {
    var e := h.elections[T];
    && T >= 1 && e.leader < n
    && (forall v :: v in e.voters ==> v < n && VotedFor(h, v, T, e))
    && |e.voters| >= Majority(n)
    && Agree(e.log0, h.tlog[T], |e.log0|)
    && (forall i :: 0 <= i < |e.log0| ==> e.log0[i].term < T)
    && (forall i :: |e.log0| <= i < |h.tlog[T]| ==> h.tlog[T][i].term == T)
    && GoodLog(h, h.tlog[T])
  }

  ghost predicate VotedFor(h: History, v: nat, T: int, e: Election) {
    && (v, T) in h.votes
    && h.votes[(v, T)].candidate == e.leader
    && h.votes[(v, T)].lastTerm == LastTerm(e.log0)
    && h.votes[(v, T)].lastIndex == |e.log0| - 1
  }

  ghost predicate HistoryOk(h: History, n: nat) {
    && h.tlog.Keys == h.elections.Keys
    && forall T {:trigger ElectionOk(h, T, n)} :: T in h.elections ==> ElectionOk(h, T, n)
  }

  /** A leader between T and U began without the first k entries of T's log. */
  ghost predicate Lost(h: History, T: int, k: nat, U: int)
    requires T in h.tlog
  {
    exists W :: T < W < U && W in h.elections && !Agree(h.tlog[T], h.elections[W].log0, k)
  }

  ghost predicate Acked(h: History, v: nat, T: int, k: int) {
    (v, T) in h.acks && k <= h.acks[(v, T)]
  }

  ghost predicate LeaderOk(h: History, s: nat, n: Node) {
    && n.term in h.elections && n.term in h.tlog
    && h.elections[n.term].leader == s
    && n.log == h.tlog[n.term]
    && (forall j :: 0 <= j < |n.nextIndex| ==> 0 <= n.nextIndex[j] <= |n.log|)
    && (forall j :: 0 <= j < |n.matchIndex| && n.matchIndex[j] >= 0 ==>
          Acked(h, j, n.term, n.matchIndex[j] + 1))
  }

  ghost predicate NodeOk(h: History, s: nat, n: Node, size: nat) {
    && n.term >= 0 && n.votedFor >= -1 && Synced(n) && n.commitIndex >= -1
    && |n.nextIndex| == |n.matchIndex| == size
    && LogOk(h, n.log, n.term)
    && (n.role == Leader ==> LeaderOk(h, s, n))
    && (n.role == Candidate ==>
          && (s, n.term) in h.votes && h.votes[(s, n.term)].candidate == s
          && (n.term in h.elections ==> h.elections[n.term].leader != s))
  }

  /** The last term and index a candidate announced are those of the log it stands with. */
  ghost predicate Announces(n: Node, T: int, lastTerm: int, lastIndex: int) {
    T <= n.term && (n.term == T && n.role == Candidate ==>
                      lastTerm == LastTerm(n.log) && lastIndex == |n.log| - 1)
  }

  ghost predicate VoteOk(h: History, nodes: seq<Node>, v: nat, T: int)
    requires (v, T) in h.votes
  {
    var vote := h.votes[(v, T)];
    && v < |nodes| && vote.candidate < |nodes|
    && 1 <= T <= nodes[v].term
    && (nodes[v].term == T ==> nodes[v].votedFor == vote.candidate)
    && Announces(nodes[vote.candidate], T, vote.lastTerm, vote.lastIndex)
    && LogOk(h, vote.voterLog, T)
    && UpToDate(vote.voterLog, vote.lastTerm, vote.lastIndex)
    && forall T' :: (v, T') in h.acks && T' < T ==> AckVoteOk(h, v, T', T)
  }

  ghost predicate AckVoteOk(h: History, v: nat, T: int, U: int)
    requires (v, U) in h.votes && (v, T) in h.acks
  {
    && T in h.tlog
    && forall k: nat :: k <= h.acks[(v, T)] ==> KeptByVoter(h, v, T, U, k)
  }

  ghost predicate KeptByVoter(h: History, v: nat, T: int, U: int, k: nat)
    requires (v, U) in h.votes && T in h.tlog
  {
    || Agree(h.tlog[T], h.votes[(v, U)].voterLog, k)
    || Lost(h, T, k, U)
    || (U in h.elections && v !in h.elections[U].voters)
  }

  ghost predicate AckOk(h: History, nodes: seq<Node>, v: nat, T: int)
    requires (v, T) in h.acks
  {
    && v < |nodes| && T in h.elections && T in h.tlog
    && T <= nodes[v].term
    && h.acks[(v, T)] <= |h.tlog[T]|
    && forall k: nat :: k <= h.acks[(v, T)] ==> Kept(h, nodes[v], T, k)
  }

  ghost predicate Kept(h: History, n: Node, T: int, k: nat)
    requires T in h.tlog
  {
    Agree(h.tlog[T], n.log, k) || Lost(h, T, k, n.term + 1)
  }

  ghost predicate AppendOk(h: History, args: AppendArgs) {
    && args.term in h.elections && args.term in h.tlog
    && args.leader == h.elections[args.term].leader
    && -1 <= args.prevLogIndex
    && var K := h.tlog[args.term];
       var end := args.prevLogIndex + 1 + |args.entries|;
       && end <= |K|
       && args.entries == K[args.prevLogIndex + 1 .. end]
       && args.prevLogTerm == TermAt(K, args.prevLogIndex)
  }

  ghost predicate ReplyOk(h: History, follower: nat, args: AppendArgs, reply: AppendReply) {
    && reply.term >= args.term
    && (reply.success ==> Acked(h, follower, args.term, args.prevLogIndex + 1 + |args.entries|))
    && (!reply.success && reply.term == args.term ==> RejectOk(args, reply.info))
  }

  ghost predicate RejectOk(args: AppendArgs, info: LogInfo) {
    if args.prevLogIndex >= info.len then 0 <= info.len else 0 <= info.index <= args.prevLogIndex
  }

  ghost predicate MsgOk(h: History, nodes: seq<Node>, m: Message) {
    match m
    case RequestVote(a) =>
      a.candidate < |nodes| && 1 <= a.term
      && Announces(nodes[a.candidate], a.term, a.lastLogTerm, a.lastLogIndex)
    case VoteAnswer(v, a, r) =>
      a.candidate < |nodes| && v != a.candidate &&
      (r.granted ==> (v, a.term) in h.votes && h.votes[(v, a.term)].candidate == a.candidate)
    case AppendEntries(to, a) => AppendOk(h, a) && to != a.leader
    case AppendAnswer(f, a, r) => f < |nodes| && AppendOk(h, a) && ReplyOk(h, f, a, r)
  }

  /** The leader of a term has got to it. */
  ghost predicate Reached(h: History, nodes: seq<Node>, T: int)
    requires T in h.elections
  {
    h.elections[T].leader < |nodes| && T <= nodes[h.elections[T].leader].term
  }

  ghost predicate Inv(c: Cluster, h: History) {
    && |c.nodes| >= 1
    && HistoryOk(h, |c.nodes|)
    && (forall s :: 0 <= s < |c.nodes| ==> NodeOk(h, s, c.nodes[s], |c.nodes|))
    && (forall v, T {:trigger VoteOk(h, c.nodes, v, T)} :: (v, T) in h.votes ==> VoteOk(h, c.nodes, v, T))
    && (forall v, T {:trigger AckOk(h, c.nodes, v, T)} :: (v, T) in h.acks ==> AckOk(h, c.nodes, v, T))
    && (forall m {:trigger MsgOk(h, c.nodes, m)} :: m in c.net ==> MsgOk(h, c.nodes, m))
    && (forall T :: T in h.elections ==> Reached(h, c.nodes, T))
  }

  // --------------------------------------------------- how history is kept

  function Genesis(): History {
    History(map[], map[], map[], map[])
  }

  function RecordVote(h: History, v: nat, T: int, vote: Vote): History {
    if (v, T) in h.votes then h else h.(votes := h.votes[(v, T) := vote])
  }

  function RecordAck(h: History, v: nat, T: int, k: nat): History {
    var known := if (v, T) in h.acks then h.acks[(v, T)] else 0;
    h.(acks := h.acks[(v, T) := if known < k then k else known])
  }

  function RecordElection(h: History, T: int, e: Election): History {
    RecordAck(h.(elections := h.elections[T := e], tlog := h.tlog[T := e.log0]), e.leader, T, |e.log0|)
  }

  function Record(c: Cluster, h: History, l: Label): History
    requires Enabled(c, l) && NoPanic(c, l)
  {
    var s := l.s;
    var n := c.nodes[s];
    match l
    case Timeout(_) =>
      RecordVote(h, s, n.term + 1, Vote(s, n.log, LastTerm(n.log), |n.log| - 1))
    case OnRequestVote(_, m) =>
      if HandleRequestVote(n, m.vote).1.granted
      then RecordVote(h, s, m.vote.term,
                      Vote(m.vote.candidate, n.log, m.vote.lastLogTerm, m.vote.lastLogIndex))
      else h
    case Elected(_) => RecordElection(h, n.term, Election(s, Granted(c, s) + {s}, n.log))
    case Start(_, command) =>
      var log' := AppendCommand(n, s, command).log;
      RecordAck(h.(tlog := h.tlog[n.term := log']), s, n.term, |log'|)
    case OnAppendEntries(_, m) =>
      if HandleAppendEntries(n, m.append).1.success
      then RecordAck(h, s, m.append.term, m.append.prevLogIndex + 1 + |m.append.entries|)
      else h
    case _ => h
  }

  // -------------------------------------------- facts stable as time passes

  /** Logs of terms are only extended and records are only added. */
  ghost predicate Grows(h: History, h': History) {
    && h.tlog.Keys <= h'.tlog.Keys && h.elections.Keys <= h'.elections.Keys
    && h.votes.Keys <= h'.votes.Keys && h.acks.Keys <= h'.acks.Keys
    && (forall T :: T in h.tlog ==> Agree(h.tlog[T], h'.tlog[T], |h.tlog[T]|))
    && (forall T :: T in h.elections ==> h'.elections[T] == h.elections[T])
    && (forall k :: k in h.votes ==> h'.votes[k] == h.votes[k])
    && (forall k :: k in h.acks ==> h.acks[k] <= h'.acks[k])
  }

  /** What any step does to the server that takes it, as far as votes can tell. */
  ghost predicate Forward(n: Node, n': Node) {
    && n'.term >= n.term
    && (n'.term == n.term && n.votedFor != -1 ==> n'.votedFor == n.votedFor)
    && (n'.term == n.term && n'.role == Candidate ==> n.role == Candidate && n'.log == n.log)
  }

  ghost predicate Moved(nodes: seq<Node>, nodes': seq<Node>, s: nat) {
    s < |nodes| == |nodes'| && nodes' == nodes[s := nodes'[s]] && Forward(nodes[s], nodes'[s])
  }

  lemma GoodLogStable(h: History, h': History, log: Log)
    requires Grows(h, h') && GoodLog(h, log)
    ensures GoodLog(h', log)
  {
  }

  lemma MsgStable(h: History, h': History, nodes: seq<Node>, nodes': seq<Node>, s: nat, m: Message)
    requires Grows(h, h') && Moved(nodes, nodes', s) && MsgOk(h, nodes, m)
    ensures MsgOk(h', nodes', m)
  {
  }

  /** Only server s has acknowledged more, and only in terms from `term` on. */
  ghost predicate AcksOnlyBy(h: History, h': History, s: nat, term: int) {
    forall v, T :: (v, T) in h'.acks && (v != s || T < term) ==>
      (v, T) in h.acks && h'.acks[(v, T)] == h.acks[(v, T)]
  }

  lemma VoteStable(h: History, h': History, nodes: seq<Node>, nodes': seq<Node>, s: nat, v: nat, T: int)
    requires Grows(h, h') && Moved(nodes, nodes', s) && AcksOnlyBy(h, h', s, nodes[s].term)
    requires (v, T) in h.votes && VoteOk(h, nodes, v, T)
    requires forall T' :: (v, T') in h.acks ==> AckOk(h, nodes, v, T')
    ensures VoteOk(h', nodes', v, T)
  {
    GoodLogStable(h, h', h.votes[(v, T)].voterLog);
    forall T' | (v, T') in h'.acks && T' < T ensures AckVoteOk(h', v, T', T) {
      assert AckOk(h, nodes, v, T') && AckVoteOk(h, v, T', T);
      forall k: nat | k <= h'.acks[(v, T')] ensures KeptByVoter(h', v, T', T, k) {
        assert KeptByVoter(h, v, T', T, k);
      }
    }
  }

  lemma AckStable(h: History, h': History, n: Node, n': Node, T: int, k: nat)
    requires Grows(h, h') && T in h.tlog && k <= |h.tlog[T]| && Kept(h, n, T, k)
    requires n'.log == n.log && n'.term >= n.term
    ensures Kept(h', n', T, k)
  {
  }

  lemma NodeStable(h: History, h': History, s: nat, n: Node, size: nat)
    requires Grows(h, h') && NodeOk(h, s, n, size)
    requires n.role == Leader ==> n.term in h'.tlog && h'.tlog[n.term] == h.tlog[n.term]
    requires n.role == Candidate && n.term in h'.elections ==> h'.elections[n.term].leader != s
    ensures NodeOk(h', s, n, size)
  {
  }

  /** What is left to check when server s steps and the history is extended. */
  lemma StepFrame(c: Cluster, h: History, c': Cluster, h': History, s: nat)
    requires Inv(c, h) && Grows(h, h') && Moved(c.nodes, c'.nodes, s)
    requires AcksOnlyBy(h, h', s, c.nodes[s].term)
    requires HistoryOk(h', |c.nodes|)
    requires forall j :: 0 <= j < |c.nodes| && j != s ==> NodeOk(h', j, c.nodes[j], |c.nodes|)
    requires NodeOk(h', s, c'.nodes[s], |c.nodes|)
    requires forall v, T :: (v, T) in h'.votes && (v, T) !in h.votes ==> VoteOk(h', c'.nodes, v, T)
    requires forall T :: (s, T) in h'.acks ==> AckOk(h', c'.nodes, s, T)
    requires forall m :: m in c'.net && m !in c.net ==> MsgOk(h', c'.nodes, m)
    requires forall T :: T in h'.elections && T !in h.elections ==> Reached(h', c'.nodes, T)
    ensures Inv(c', h')
  {
    forall v, T | (v, T) in h'.votes ensures VoteOk(h', c'.nodes, v, T) {
      if (v, T) in h.votes {
        VoteStable(h, h', c.nodes, c'.nodes, s, v, T);
      }
    }
    forall v, T | (v, T) in h'.acks ensures AckOk(h', c'.nodes, v, T) {
      if v != s {
        assert AckOk(h, c.nodes, v, T);
        forall k: nat | k <= h'.acks[(v, T)] ensures Kept(h', c'.nodes[v], T, k) {
          AckStable(h, h', c.nodes[v], c'.nodes[v], T, k);
        }
      }
    }
    forall m | m in c'.net ensures MsgOk(h', c'.nodes, m) {
      if m in c.net {
        MsgStable(h, h', c.nodes, c'.nodes, s, m);
      }
    }
  }
}
