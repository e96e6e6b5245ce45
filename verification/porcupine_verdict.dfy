/**
 From a history of key/value operations to a verdict: Partition, makeEntries,
 checkSingle on every part, and the verdict logic of checkParallel.
 */
module LinearizabilityVerdict {
  import opened Linearizability
  import opened LinearizabilityChecker
  import opened HistoryEntries
  import opened KvLinearizability
  import opened Sequences
  import opened Strings

  datatype CheckResult = Unknown | Ok | Illegal

  /** A call that returns, or one that waits for ever. */
  datatype Outcome = Verdict(result: CheckResult) | Blocked

  // ------------------------------------------------------------ partition

  ghost predicate Grouped(history: seq<KvOp>, m: map<string, seq<KvOp>>) {
    && (forall x :: x in history ==> x.input.key in m)
    && (forall key :: key in m ==> m[key] == OfKey(history, key) && m[key] != [])
  }

  method Group(history: seq<KvOp>) returns (m: map<string, seq<KvOp>>)
    ensures Grouped(history, m)
  {
    m := map[];
    for i := 0 to |history|
      invariant Grouped(history[..i], m)
    {
      var v := history[i];
      var key := v.input.key;
      forall k: string ensures OfKey(history[..i + 1], k) == OfKey(history[..i], k) + if key == k then [v] else [] {
        assert history[..i + 1] == history[..i] + [v];
        OfKeyAppend(history[..i], v, k);
      }
      if key !in m {
        NoneOfKey(history[..i], m, key);
      }
      m := m[key := (if key in m then m[key] else []) + [v]];
    }
    assert history[..|history|] == history;
  }

  lemma NoneOfKey(history: seq<KvOp>, m: map<string, seq<KvOp>>, key: string)
    requires Grouped(history, m) && key !in m
    ensures OfKey(history, key) == []
  {
    if OfKey(history, key) != [] {
      OfKeyMembers(history, key, OfKey(history, key)[0]);
    }
  }

  /** The keys of a Go map, in whatever order iteration gives them. */
  method KeysOf(m: map<string, seq<KvOp>>) returns (keys: seq<string>)
    ensures multiset(keys) == multiset(m.Keys)
  {
    keys := [];
    var left := m.Keys;
    while left != {}
      invariant left <= m.Keys && multiset(keys) + multiset(left) == multiset(m.Keys)
      decreases left
    {
      var k :| k in left;
      assert multiset(left) == multiset(left - {k}) + multiset{k};
      keys, left := keys + [k], left - {k};
    }
  }

  method Partition(history: seq<KvOp>) returns (parts: seq<seq<KvOp>>, ghost keys: seq<string>)
    ensures IsPartition(history, keys, parts) && SortedKeys(keys, k => k)
    ensures forall i :: 0 <= i < |parts| ==> parts[i] != [] && parts[i] == OfKey(history, parts[i][0].input.key)
  {
    var m := Group(history);
    var unsorted := KeysOf(m);
    var sorted := SortByKey(unsorted, k => k);
    parts := [];
    KeysDistinct(m.Keys, sorted);
    for i := 0 to |sorted|
      invariant |parts| == i && forall j :: 0 <= j < i ==> parts[j] == OfKey(history, sorted[j]) && parts[j] != []
    {
      parts := parts + [m[sorted[i]]];
    }
    keys := sorted;
    forall i | 0 <= i < |parts| ensures parts[i][0].input.key == keys[i] {
      OfKeyMembers(history, keys[i], parts[i][0]);
    }
    forall x | x in history ensures x.input.key in keys {
      assert x.input.key in multiset(keys);
    }
  }

  lemma KeysDistinct(s: set<string>, keys: seq<string>)
    requires multiset(keys) == multiset(s)
    ensures forall i, j :: 0 <= i < j < |keys| ==> keys[i] != keys[j]
    ensures forall i :: 0 <= i < |keys| ==> keys[i] in s
  {
    forall i, j | 0 <= i < j < |keys| ensures keys[i] != keys[j] {
      if keys[i] == keys[j] {
        CountOfRepeated(keys, i, j);
      }
    }
    forall i | 0 <= i < |keys| ensures keys[i] in s {
      assert keys[i] in multiset(keys);
    }
  }

  // -------------------------------------------------------------- verdict

  /** The order in which the results of the parts arrive: each part once. */
  ghost predicate Arrival(arrivals: seq<nat>, n: nat) {
    |arrivals| == n && Distinct(arrivals) && Within(arrivals, n)
  }

  /**
   checkParallel.  The results arrive in any order, and the timeout fires after
   `timeout` of them, or never; a search is told to stop only after the loop has
   ended, so every result taken from the channel is one of an undisturbed search.
   The loop counts results after it has received one, so with no part at all only
   the timeout ends it.
   */
  method CheckParallel<S(!new), I(!new), O(!new)>(
    m: Model<S, I, O>, ghost hs: seq<Hist<I, O>>, histories: seq<seq<Entry<I, O>>>,
    arrivals: seq<nat>, timeout: nat, computeInfo: bool)
    returns (r: Outcome)
    requires Sound(m) && |hs| == |histories|
    requires forall i :: 0 <= i < |hs| ==> WellFormed(hs[i]) && hs[i].entries == histories[i]
    requires Arrival(arrivals, |histories|)
    ensures r == Verdict(Illegal) ==> exists i :: 0 <= i < |hs| && !EntriesLinearizable(m, hs[i])
    ensures r == Verdict(Ok) ==> hs != [] && forall i :: 0 <= i < |hs| ==> EntriesLinearizable(m, hs[i])
    ensures r == Verdict(Unknown) ==> timeout < |hs| || (hs == [] && timeout == 0)
    ensures r == Blocked <==> hs == [] && timeout > 0
  {
    hide WellFormed, Sound, EntriesLinearizable;
    var ok, timedOut, count := true, false, 0;
    ghost var bad := -1;
    while true
      invariant 0 <= count <= |arrivals| && (count == |arrivals| ==> count == 0) && !timedOut && count <= timeout
      invariant ok ==> forall j :: 0 <= j < count ==> EntriesLinearizable(m, hs[arrivals[j]])
      invariant !ok ==> 0 <= bad < |hs| && !EntriesLinearizable(m, hs[bad])
      decreases |arrivals| - count
    {
      if count >= timeout {
        timedOut := true;
        break;
      }
      if count >= |arrivals| {
        return Blocked;
      }
      var part := arrivals[count];
      var single := CheckSingle(m, hs[part], histories[part], _ => false);
      count := count + 1;
      if ok && !single {
        bad := part;
      }
      ok := ok && single;
      if !ok && !computeInfo {
        break;
      }
      if count >= |histories| {
        break;
      }
    }
    if ok && !timedOut {
      AllArrived(m, hs, arrivals);
    }
    r := Verdict(if !ok then Illegal else if timedOut then Unknown else Ok);
  }

  lemma AllArrived<S, I, O>(m: Model<S, I, O>, hs: seq<Hist<I, O>>, arrivals: seq<nat>)
    requires Arrival(arrivals, |hs|) && forall i :: 0 <= i < |hs| ==> WellFormed(hs[i])
    requires forall j :: 0 <= j < |hs| ==> EntriesLinearizable(m, hs[arrivals[j]])
    ensures forall i :: 0 <= i < |hs| ==> EntriesLinearizable(m, hs[i])
  {
    forall i | 0 <= i < |hs| ensures EntriesLinearizable(m, hs[i]) {
      var j := Arrives(arrivals, |hs|, i);
    }
  }

  /** Distinct numbers below n, n of them, are all of them. */
  lemma {:induction false} Arrives(arrivals: seq<nat>, n: nat, i: nat) returns (j: nat)
    requires Arrival(arrivals, n) && i < n
    ensures j < n && arrivals[j] == i
    decreases n
  {
    if k :| 0 <= k < n && arrivals[k] == n - 1 {
      if i == n - 1 {
        j := k;
      } else {
        j := Arrives(Without(arrivals, k), n - 1, i);
        j := if j < k then j else j + 1;
      }
    } else {
      assert Within(arrivals, n - 1);
      DistinctBound(arrivals, n - 1);
    }
  }

  lemma PartTimed(history: seq<KvOp>, key: string)
    requires Timed(history)
    ensures Timed(OfKey(history, key))
  {
  }

  /**
   checkOperations for the key/value model: a verdict that is not Unknown says
   whether the history is linearizable for the whole map, that is, whether its
   operations have a real-time order in which every get returns what was written.
   */
  method CheckOperations(history: seq<KvOp>, schedule: nat -> seq<nat>, timeout: nat, computeInfo: bool)
    returns (r: Outcome, ghost keys: seq<string>)
    requires Timed(history) && forall n :: Arrival(schedule(n), n)
    ensures r == Verdict(Ok) ==> Linearizable(MapModel(), history) && exists order :: Explains(order, history)
    ensures r == Verdict(Illegal) ==> !Linearizable(MapModel(), history) && !exists order :: Explains(order, history)
    ensures r == Verdict(Unknown) ==> timeout < |keys| || (history == [] && timeout == 0)
    ensures r == Blocked <==> history == [] && timeout > 0
    ensures forall i :: 0 <= i < |keys| ==> OfKey(history, keys[i]) != []
  {
    hide Linearizable, EntriesLinearizable, WellFormed, SortedByTime, Raw, Placed, Sound, Explains;
    LinearizableIff(history);
    var parts;
    parts, keys := Partition(history);
    var l: seq<seq<Entry<KvInput, KvOutput>>> := [];
    ghost var hs: seq<Hist<KvInput, KvOutput>> := [];
    for i := 0 to |parts|
      invariant |l| == |hs| == i
      invariant forall j :: 0 <= j < i ==> Decided(parts[j], l[j], hs[j])
    {
      var entries := MakeEntries(parts[i]);
      PartTimed(history, keys[i]);
      EntriesDecide(KvModel(), parts[i], entries);
      l, hs := l + [entries], hs + [Placed(parts[i], entries)];
    }
    KvModelSound();
    assert history != [] ==> history[0].input.key in keys;
    assert keys != [] ==> OfKey(history, keys[0]) == parts[0] != [];
    r := CheckParallel(KvModel(), hs, l, schedule(|l|), timeout, computeInfo);
    Locality(history, keys, parts);
    if r == Verdict(Illegal) {
      ghost var i :| 0 <= i < |hs| && !EntriesLinearizable(KvModel(), hs[i]);
      assert Decided(parts[i], l[i], hs[i]);
    } else if r == Verdict(Ok) {
      forall i | 0 <= i < |parts| ensures Linearizable(KvModel(), parts[i]) {
        assert Decided(parts[i], l[i], hs[i]);
      }
    }
  }

  /** The entries of a part are a well-formed list that is linearizable exactly when the part is. */
  ghost predicate Decided(part: seq<KvOp>, entries: seq<Entry<KvInput, KvOutput>>, h: Hist<KvInput, KvOutput>) {
    && WellFormed(h) && h.entries == entries
    && (EntriesLinearizable(KvModel(), h) <==> Linearizable(KvModel(), part))
  }
}
