/**
 The MapReduce worker of src/mr/worker.go and the sequential program of
 src/main/mrsequential.go.  Files are sequences, the map and reduce functions
 and the hash are parameters, and the two programs are proved to give every key
 the same result, once.
 */
module MapReduce {
  import opened Sequences
  import opened Strings

  datatype KeyValue = KeyValue(key: string, value: string)

  /** A line of output: a key and what reduce made of its values. */
  datatype Line = Line(key: string, output: string)

  datatype Job = Job(
    mapf: (string, string) -> seq<KeyValue>,
    reducef: (string, seq<string>) -> string,
    ihash: string -> nat,
    nReduce: nat)

  /** The reduce function looks at the values of a key as a bag. */
  ghost predicate OrderInsensitive(job: Job) {
    forall key, a, b :: multiset(a) == multiset(b) ==> job.reducef(key, a) == job.reducef(key, b)
  }

  function BucketOf(job: Job, key: string): nat
    requires job.nReduce > 0
  {
    job.ihash(key) % job.nReduce
  }

  // ------------------------------------------------------- specification

  /** The values of one key, in order. */
  function Values(kvs: seq<KeyValue>, key: string): seq<string> {
    if kvs == [] then []
    else (if kvs[0].key == key then [kvs[0].value] else []) + Values(kvs[1..], key)
  }

  /** The pairs that belong to one partition, in order. */
  function Bucket(job: Job, kvs: seq<KeyValue>, p: nat): seq<KeyValue>
    requires job.nReduce > 0
  {
    if kvs == [] then []
    else (if BucketOf(job, kvs[0].key) == p then [kvs[0]] else []) + Bucket(job, kvs[1..], p)
  }

  ghost predicate HasKey(kvs: seq<KeyValue>, key: string) {
    exists i :: 0 <= i < |kvs| && kvs[i].key == key
  }

  ghost predicate HasLine(lines: seq<Line>, key: string) {
    exists i :: 0 <= i < |lines| && lines[i].key == key
  }

  /** One line for each key of kvs, with the reduction of all its values, and no other line. */
  ghost predicate IsOutput(job: Job, kvs: seq<KeyValue>, lines: seq<Line>) {
    && (forall i, j :: 0 <= i < j < |lines| ==> lines[i].key != lines[j].key)
    && (forall i :: 0 <= i < |lines| ==>
          HasKey(kvs, lines[i].key) && lines[i].output == job.reducef(lines[i].key, Values(kvs, lines[i].key)))
    && (forall key :: HasKey(kvs, key) ==> HasLine(lines, key))
  }

  // ------------------------------------------------------------- lemmas

  lemma {:induction false} ValuesAppend(a: seq<KeyValue>, b: seq<KeyValue>, key: string)
    ensures Values(a + b, key) == Values(a, key) + Values(b, key)
    decreases |a|
  {
    if a == [] {
      assert a + b == b;
    } else {
      ValuesAppend(a[1..], b, key);
      assert (a + b)[0] == a[0] && (a + b)[1..] == a[1..] + b;
      var first := if a[0].key == key then [a[0].value] else [];
      assert first + (Values(a[1..], key) + Values(b, key)) == (first + Values(a[1..], key)) + Values(b, key);
    }
  }

  lemma {:induction false} BucketAppend(job: Job, a: seq<KeyValue>, b: seq<KeyValue>, p: nat)
    requires job.nReduce > 0
    ensures Bucket(job, a + b, p) == Bucket(job, a, p) + Bucket(job, b, p)
    decreases |a|
  {
    if a == [] {
      assert a + b == b;
    } else {
      BucketAppend(job, a[1..], b, p);
      assert (a + b)[1..] == a[1..] + b;
    }
  }

  /** The values of a key, as a bag, are those of all pairs with that key. */
  lemma {:induction false} ValuesCount(kvs: seq<KeyValue>, key: string, value: string)
    ensures multiset(Values(kvs, key))[value] == multiset(kvs)[KeyValue(key, value)]
    decreases |kvs|
  {
    if kvs != [] {
      ValuesCount(kvs[1..], key, value);
      var rest := Values(kvs[1..], key);
      assert Values(kvs, key) == if kvs[0].key == key then [kvs[0].value] + rest else rest;
      assert kvs == [kvs[0]] + kvs[1..];
      hide Values;
    }
  }

  /** A pair goes to the partition that the hash of its key names, as often as it was emitted, and to no other. */
  lemma {:induction false} BucketCounts(job: Job, kvs: seq<KeyValue>, p: nat, kv: KeyValue)
    requires job.nReduce > 0
    ensures multiset(Bucket(job, kvs, p))[kv] == if job.ihash(kv.key) % job.nReduce == p then multiset(kvs)[kv] else 0
    decreases |kvs|
  {
    if kvs != [] {
      BucketCounts(job, kvs[1..], p, kv);
      assert kvs == [kvs[0]] + kvs[1..];
    }
  }

  lemma {:induction false} NoValues(kvs: seq<KeyValue>, key: string)
    ensures Values(kvs, key) == [] <==> !HasKey(kvs, key)
    decreases |kvs|
  {
    if kvs != [] {
      NoValues(kvs[1..], key);
      if HasKey(kvs[1..], key) {
        var i :| 0 <= i < |kvs[1..]| && kvs[1..][i].key == key;
        assert kvs[i + 1].key == key;
      }
      if HasKey(kvs, key) && kvs[0].key != key {
        var i :| 0 <= i < |kvs| && kvs[i].key == key;
        assert kvs[1..][i - 1].key == key;
      }
    }
  }

  /** A partition holds all the values of its own keys and none of the others. */
  lemma {:induction false} ValuesOfBucket(job: Job, kvs: seq<KeyValue>, p: nat, key: string)
    requires job.nReduce > 0
    ensures Values(Bucket(job, kvs, p), key) == if BucketOf(job, key) == p then Values(kvs, key) else []
    decreases |kvs|
  {
    if kvs != [] {
      ValuesOfBucket(job, kvs[1..], p, key);
      var head := if BucketOf(job, kvs[0].key) == p then [kvs[0]] else [];
      ValuesAppend(head, Bucket(job, kvs[1..], p), key);
      assert [kvs[0]][1..] == [];
    }
  }

  lemma {:induction false} ValuesWithout(kvs: seq<KeyValue>, j: nat, key: string)
    requires j < |kvs|
    ensures multiset(Values(kvs, key)) ==
              multiset(Values(Without(kvs, j), key)) + if kvs[j].key == key then multiset{kvs[j].value} else multiset{}
  {
    var before, rest := kvs[..j], kvs[j + 1..];
    assert kvs == before + ([kvs[j]] + rest);
    ValuesAppend(before, [kvs[j]] + rest, key);
    ValuesAppend([kvs[j]], rest, key);
    ValuesAppend(before, rest, key);
    ValuesOfOne(kvs[j], key);
    hide Values;
    assert Without(kvs, j) == before + rest;
  }

  lemma ValuesOfOne(kv: KeyValue, key: string)
    ensures Values([kv], key) == if kv.key == key then [kv.value] else []
  {
    assert [kv][1..] == [];
  }

  /** Reordering the pairs reorders the values of each key. */
  lemma {:induction false} ValuesOfPermutation(a: seq<KeyValue>, b: seq<KeyValue>, key: string)
    requires multiset(a) == multiset(b)
    ensures multiset(Values(a, key)) == multiset(Values(b, key))
    decreases |a|
  {
    assert |a| == |multiset(a)| == |b|;
    if a != [] {
      var k := |a| - 1;
      assert a[k] in multiset(b);
      var j :| 0 <= j < |b| && b[j] == a[k];
      WithoutMultiset(a, k);
      WithoutMultiset(b, j);
      CancelOne(multiset(Without(a, k)), multiset(Without(b, j)), a[k]);
      ValuesOfPermutation(Without(a, k), Without(b, j), key);
      ValuesWithout(a, k, key);
      ValuesWithout(b, j, key);
    }
  }

  lemma OutputOfPermutation(job: Job, a: seq<KeyValue>, b: seq<KeyValue>, lines: seq<Line>)
    requires OrderInsensitive(job) && multiset(a) == multiset(b) && IsOutput(job, a, lines)
    ensures IsOutput(job, b, lines)
  {
    forall key ensures (HasKey(a, key) <==> HasKey(b, key)) && job.reducef(key, Values(a, key)) == job.reducef(key, Values(b, key)) {
      ValuesOfPermutation(a, b, key);
      NoValues(a, key);
      NoValues(b, key);
      assert |Values(a, key)| == |multiset(Values(a, key))| == |Values(b, key)|;
    }
  }

  // -------------------------------------------------------------- grouping

  /** reduceSorted, which is also the last loop of the sequential program. */
  method ReduceSorted(job: Job, kvs: seq<KeyValue>) returns (lines: seq<Line>)
    requires SortedKeys(kvs, (kv: KeyValue) => kv.key)
    ensures IsOutput(job, kvs, lines)
  {
    hide IsOutput;
    lines := [];
    var i := 0;
    assert kvs[..0] == [];
    NoOutput(job);
    while i < |kvs|
      invariant 0 <= i <= |kvs| && IsOutput(job, kvs[..i], lines)
      invariant forall a, b :: 0 <= a < i <= b < |kvs| ==> kvs[a].key != kvs[b].key
    {
      var j := i + 1;
      while j < |kvs| && kvs[j].key == kvs[i].key
        invariant i < j <= |kvs| && forall b :: i <= b < j ==> kvs[b].key == kvs[i].key
      {
        j := j + 1;
      }
      var values := ValuesOfGroup(kvs, i, j);
      GroupEnds(kvs, i, j);
      GroupAdded(job, kvs, lines, i, j);
      lines := lines + [Line(kvs[i].key, job.reducef(kvs[i].key, values))];
      i := j;
    }
    assert kvs[..|kvs|] == kvs;
  }

  /** The inner loop: the values of a run of pairs with one key. */
  method ValuesOfGroup(kvs: seq<KeyValue>, i: nat, j: nat) returns (values: seq<string>)
    requires i < j <= |kvs| && forall b :: i <= b < j ==> kvs[b].key == kvs[i].key
    ensures values == Values(kvs[i..j], kvs[i].key)
  {
    values := [];
    for k := i to j
      invariant values == Values(kvs[i..k], kvs[i].key)
    {
      assert kvs[i..k + 1] == kvs[i..k] + [kvs[k]];
      ValuesAppend(kvs[i..k], [kvs[k]], kvs[i].key);
      assert [kvs[k]][1..] == [];
      values := values + [kvs[k].value];
    }
  }

  /** In sorted pairs a key does not come back after another one. */
  lemma GroupEnds(kvs: seq<KeyValue>, i: nat, j: nat)
    requires SortedKeys(kvs, (kv: KeyValue) => kv.key) && i < j <= |kvs|
    requires forall b :: i <= b < j ==> kvs[b].key == kvs[i].key
    requires j < |kvs| ==> kvs[j].key != kvs[i].key
    requires forall a, b :: 0 <= a < i <= b < |kvs| ==> kvs[a].key != kvs[b].key
    ensures forall a, b :: 0 <= a < j <= b < |kvs| ==> kvs[a].key != kvs[b].key
  {
    forall a, b | i <= a < j <= b < |kvs| ensures kvs[a].key != kvs[b].key {
      if kvs[a].key == kvs[b].key {
        assert Leq(kvs[i].key, kvs[j].key);
        assert Leq(kvs[j].key, kvs[b].key) || j == b;
        LeqAntisymmetric(kvs[i].key, kvs[j].key);
      }
    }
  }

  /** Outputs of disjoint sets of keys add up. */
  lemma OutputConcat(job: Job, a: seq<KeyValue>, b: seq<KeyValue>, la: seq<Line>, lb: seq<Line>)
    requires IsOutput(job, a, la) && IsOutput(job, b, lb)
    requires forall key :: !(HasKey(a, key) && HasKey(b, key))
    ensures IsOutput(job, a + b, la + lb)
  {
    hide Values;
    forall key: string
      ensures HasKey(a + b, key) <==> HasKey(a, key) || HasKey(b, key)
      ensures HasKey(a, key) ==> Values(a + b, key) == Values(a, key)
      ensures HasKey(b, key) ==> Values(a + b, key) == Values(b, key)
    {
      ValuesAppend(a, b, key);
      NoValues(a, key);
      NoValues(b, key);
      NoValues(a + b, key);
    }
    forall key | HasKey(a + b, key) ensures HasLine(la + lb, key) {
      if HasKey(a, key) {
        var n :| 0 <= n < |la| && la[n].key == key;
        assert (la + lb)[n].key == key;
      } else {
        var n :| 0 <= n < |lb| && lb[n].key == key;
        assert (la + lb)[|la| + n].key == key;
      }
    }
  }

  /** A run of pairs with one key gives one line. */
  lemma GroupOutput(job: Job, group: seq<KeyValue>, key: string)
    requires group != [] && forall b :: 0 <= b < |group| ==> group[b].key == key
    ensures IsOutput(job, group, [Line(key, job.reducef(key, Values(group, key)))])
  {
    var lines := [Line(key, job.reducef(key, Values(group, key)))];
    assert group[0].key == key;
    assert lines[0].key == key;
  }

  lemma GroupAdded(job: Job, kvs: seq<KeyValue>, lines: seq<Line>, i: nat, j: nat)
    requires i < j <= |kvs| && IsOutput(job, kvs[..i], lines)
    requires forall b :: i <= b < j ==> kvs[b].key == kvs[i].key
    requires forall a, b :: 0 <= a < i <= b < |kvs| ==> kvs[a].key != kvs[b].key
    ensures IsOutput(job, kvs[..j], lines + [Line(kvs[i].key, job.reducef(kvs[i].key, Values(kvs[i..j], kvs[i].key)))])
  {
    hide IsOutput, Values;
    var key := kvs[i].key;
    GroupOutput(job, kvs[i..j], key);
    OutputConcat(job, kvs[..i], kvs[i..j], lines, [Line(key, job.reducef(key, Values(kvs[i..j], key)))]);
    assert kvs[..j] == kvs[..i] + kvs[i..j];
  }

  // ------------------------------------------------------------- pipeline

  datatype Input = Input(filename: string, content: string)

  /** All pairs that map emits, in the order of the files. */
  function Intermediate(job: Job, inputs: seq<Input>): seq<KeyValue> {
    if inputs == [] then []
    else
      var n := |inputs| - 1;
      Intermediate(job, inputs[..n]) + job.mapf(inputs[n].filename, inputs[n].content)
  }

  /** The sequential program. */
  method Sequential(job: Job, inputs: seq<Input>) returns (lines: seq<Line>)
    requires OrderInsensitive(job)
    ensures IsOutput(job, Intermediate(job, inputs), lines)
  {
    hide IsOutput, OrderInsensitive;
    var intermediate := [];
    for i := 0 to |inputs|
      invariant intermediate == Intermediate(job, inputs[..i])
    {
      assert inputs[..i + 1][..i] == inputs[..i];
      intermediate := intermediate + job.mapf(inputs[i].filename, inputs[i].content);
    }
    assert inputs[..|inputs|] == inputs;
    var sorted := SortByKey(intermediate, (kv: KeyValue) => kv.key);
    lines := ReduceSorted(job, sorted);
    OutputOfPermutation(job, sorted, intermediate, lines);
  }

  /** A file of partition p has a pair as often as it was emitted, if the hash of its key names p, and not at all otherwise. */
  ghost predicate InFile(job: Job, kvs: seq<KeyValue>, file: seq<KeyValue>, p: nat, kv: KeyValue)
    requires job.nReduce > 0
  {
    multiset(file)[kv] == if job.ihash(kv.key) % job.nReduce == p then multiset(kvs)[kv] else 0
  }

  lemma FilesCount(job: Job, kvs: seq<KeyValue>, files: seq<seq<KeyValue>>)
    requires job.nReduce > 0 && |files| == job.nReduce
    requires forall p :: 0 <= p < job.nReduce ==> files[p] == Bucket(job, kvs, p)
    ensures forall p, kv :: 0 <= p < job.nReduce ==> InFile(job, kvs, files[p], p, kv)
  {
    forall p, kv | 0 <= p < job.nReduce ensures InFile(job, kvs, files[p], p, kv) {
      BucketCounts(job, kvs, p, kv);
    }
  }

  /** encodeKV: the files mr-taskId-0, mr-taskId-1, ... of one map task. */
  method EncodeKV(job: Job, kvs: seq<KeyValue>) returns (files: seq<seq<KeyValue>>)
    requires job.nReduce > 0
    ensures |files| == job.nReduce && forall p :: 0 <= p < job.nReduce ==> files[p] == Bucket(job, kvs, p)
    ensures forall p, kv :: 0 <= p < job.nReduce ==> InFile(job, kvs, files[p], p, kv)
  {
    hide InFile;
    files := seq(job.nReduce, _ => []);
    assert kvs[..0] == [];
    for i := 0 to |kvs|
      invariant |files| == job.nReduce && forall p :: 0 <= p < job.nReduce ==> files[p] == Bucket(job, kvs[..i], p)
    {
      var b := BucketOf(job, kvs[i].key);
      forall p | 0 <= p < job.nReduce
        ensures Bucket(job, kvs[..i + 1], p) == Bucket(job, kvs[..i], p) + if p == b then [kvs[i]] else []
      {
        assert kvs[..i + 1] == kvs[..i] + [kvs[i]];
        BucketAppend(job, kvs[..i], [kvs[i]], p);
        assert [kvs[i]][1..] == [];
      }
      files := files[b := files[b] + [kvs[i]]];
    }
    assert kvs[..|kvs|] == kvs;
    FilesCount(job, kvs, files);
  }

  /** What the map tasks have written, one row of files per task. */
  ghost predicate Written(job: Job, inputs: seq<Input>, files: seq<seq<seq<KeyValue>>>)
    requires job.nReduce > 0
  {
    && |files| == |inputs|
    && forall t :: 0 <= t < |files| ==> RowOk(job, inputs[t], files[t])
  }

  ghost predicate RowOk(job: Job, input: Input, row: seq<seq<KeyValue>>)
    requires job.nReduce > 0
  {
    && |row| == job.nReduce
    && forall p :: 0 <= p < job.nReduce ==> row[p] == Bucket(job, job.mapf(input.filename, input.content), p)
  }

  method ReadPartition(job: Job, ghost inputs: seq<Input>, files: seq<seq<seq<KeyValue>>>, p: nat)
    returns (kva: seq<KeyValue>)
    requires p < job.nReduce && Written(job, inputs, files)
    ensures kva == Bucket(job, Intermediate(job, inputs), p)
  {
    kva := [];
    for t := 0 to |files|
      invariant kva == Bucket(job, Intermediate(job, inputs[..t]), p)
    {
      assert RowOk(job, inputs[t], files[t]);
      assert inputs[..t + 1][..t] == inputs[..t];
      BucketAppend(job, Intermediate(job, inputs[..t]), job.mapf(inputs[t].filename, inputs[t].content), p);
      kva := kva + files[t][p];
    }
    assert inputs[..|files|] == inputs;
  }

  method Reduce(job: Job, ghost inputs: seq<Input>, files: seq<seq<seq<KeyValue>>>, p: nat) returns (lines: seq<Line>)
    requires p < job.nReduce && Written(job, inputs, files) && OrderInsensitive(job)
    ensures IsOutput(job, Bucket(job, Intermediate(job, inputs), p), lines)
  {
    hide IsOutput, OrderInsensitive, Written, Bucket;
    var intermediate := ReadPartition(job, inputs, files, p);
    var sorted := SortByKey(intermediate, (kv: KeyValue) => kv.key);
    lines := ReduceSorted(job, sorted);
    OutputOfPermutation(job, sorted, intermediate, lines);
  }

  /** The first p partitions, one after the other. */
  function Below(job: Job, kvs: seq<KeyValue>, p: nat): seq<KeyValue>
    requires job.nReduce > 0
  {
    if p == 0 then [] else Below(job, kvs, p - 1) + Bucket(job, kvs, p - 1)
  }

  lemma {:induction false} ValuesBelow(job: Job, kvs: seq<KeyValue>, p: nat, key: string)
    requires job.nReduce > 0
    ensures Values(Below(job, kvs, p), key) == if BucketOf(job, key) < p then Values(kvs, key) else []
    decreases p
  {
    if p > 0 {
      ValuesBelow(job, kvs, p - 1, key);
      ValuesOfBucket(job, kvs, p - 1, key);
      ValuesAppend(Below(job, kvs, p - 1), Bucket(job, kvs, p - 1), key);
    }
  }

  lemma NextPartition(job: Job, kvs: seq<KeyValue>, p: nat, la: seq<Line>, lb: seq<Line>)
    requires job.nReduce > 0 && IsOutput(job, Below(job, kvs, p), la) && IsOutput(job, Bucket(job, kvs, p), lb)
    ensures IsOutput(job, Below(job, kvs, p + 1), la + lb)
  {
    hide IsOutput, Values, HasKey;
    forall key ensures !(HasKey(Below(job, kvs, p), key) && HasKey(Bucket(job, kvs, p), key)) {
      ValuesBelow(job, kvs, p, key);
      ValuesOfBucket(job, kvs, p, key);
      NoValues(Below(job, kvs, p), key);
      NoValues(Bucket(job, kvs, p), key);
    }
    OutputConcat(job, Below(job, kvs, p), Bucket(job, kvs, p), la, lb);
  }

  /** What counts as an output depends only on the values of each key. */
  lemma OutputByValues(job: Job, a: seq<KeyValue>, b: seq<KeyValue>, lines: seq<Line>)
    requires IsOutput(job, a, lines) && forall key :: Values(a, key) == Values(b, key)
    ensures IsOutput(job, b, lines)
  {
    forall key ensures HasKey(a, key) <==> HasKey(b, key) {
      NoValues(a, key);
      NoValues(b, key);
      assert Values(a, key) == Values(b, key);
    }
  }

  /** All map tasks, then all reduce tasks; the lines of all output files together. */
  method Distributed(job: Job, inputs: seq<Input>) returns (lines: seq<Line>)
    requires OrderInsensitive(job) && job.nReduce > 0
    ensures IsOutput(job, Intermediate(job, inputs), lines)
  {
    hide IsOutput, OrderInsensitive, Bucket, Values;
    var files := [];
    for t := 0 to |inputs|
      invariant Written(job, inputs[..t], files)
    {
      var row := EncodeKV(job, job.mapf(inputs[t].filename, inputs[t].content));
      assert RowOk(job, inputs[t], row);
      files := files + [row];
    }
    assert inputs[..|inputs|] == inputs;
    ghost var kvs := Intermediate(job, inputs);
    lines := [];
    NoOutput(job);
    for p := 0 to job.nReduce
      invariant IsOutput(job, Below(job, kvs, p), lines)
    {
      var part := Reduce(job, inputs, files, p);
      NextPartition(job, kvs, p, lines, part);
      lines := lines + part;
    }
    forall key ensures Values(Below(job, kvs, job.nReduce), key) == Values(kvs, key) {
      ValuesBelow(job, kvs, job.nReduce, key);
    }
    OutputByValues(job, Below(job, kvs, job.nReduce), kvs, lines);
  }

  lemma NoOutput(job: Job)
    ensures IsOutput(job, [], [])
  {
  }

  /** The two programs print the same lines: each line of one is a line of the other, exactly once. */
  lemma SameLines(job: Job, kvs: seq<KeyValue>, a: seq<Line>, b: seq<Line>)
    requires IsOutput(job, kvs, a) && IsOutput(job, kvs, b)
    ensures multiset(a) == multiset(b)
  {
    forall x: Line ensures multiset(a)[x] == multiset(b)[x] {
      CountsOfDistinct(a, x);
      CountsOfDistinct(b, x);
      assert x in multiset(a) <==> x in a;
      assert x in multiset(b) <==> x in b;
    }
  }

  /** The distributed pipeline agrees with the sequential program, for every input and number of partitions. */
  method RunBoth(job: Job, inputs: seq<Input>) returns (distributed: seq<Line>, sequential: seq<Line>)
    requires OrderInsensitive(job) && job.nReduce > 0
    ensures multiset(distributed) == multiset(sequential)
    ensures IsOutput(job, Intermediate(job, inputs), distributed)
  {
    hide IsOutput, OrderInsensitive;
    distributed := Distributed(job, inputs);
    sequential := Sequential(job, inputs);
    SameLines(job, Intermediate(job, inputs), distributed, sequential);
  }
}
