/**
 * The helpers the task-type code generator hands to its templates
 * (lowerFirst, endwith, merge) and the normalisation step of its main
 * program, which sorts every task's Input and Output lists and the list of
 * task names before the templates are run.
 */
module Generator {
  import opened ByteStrings
  import opened StringSort

  const UpperA: byte := 65   // 'A'
  const UpperZ: byte := 90   // 'Z'
  const LowerA: byte := 97   // 'a'
  const LowerZ: byte := 122  // 'z'

  predicate IsUpper(c: byte) { UpperA <= c <= UpperZ }

  predicate IsLower(c: byte) { LowerA <= c <= LowerZ }

  /** lowerFirst: turns an ASCII upper-case first byte into lower case. */
  function LowerFirst(s: Str): (r: Str)
    ensures |r| == |s|
    ensures |s| > 0 ==> r[1..] == s[1..]
    ensures |s| > 0 && IsUpper(s[0]) ==> IsLower(r[0]) && r[0] - s[0] == LowerA - UpperA
    ensures r == s <==> |s| == 0 || !IsUpper(s[0])
    ensures |r| == 0 || !IsUpper(r[0])
  {
    if |s| == 0 then []
    else if s[0] < UpperA || s[0] > UpperZ then s
    else [s[0] + LowerA - UpperA] + s[1..]
  }

  lemma LowerFirstIdempotent(s: Str)
    ensures LowerFirst(LowerFirst(s)) == LowerFirst(s)
  {
  }

  /** endwith: strings.HasSuffix(x, y). */
  function EndsWith(x: Str, y: Str): (r: bool)
    ensures r <==> exists k :: 0 <= k <= |x| && x[k..] == y
  {
    |x| >= |y| && x[|x| - |y|..] == y
  }

  /** The result of merge(x, y): increasing, holding exactly the strings of x and y. */
  ghost predicate IsMergeOf(o: seq<Str>, x: seq<Str>, y: seq<Str>)
  {
    && StrictlySorted(o)
    && forall s :: s in o <==> s in x || s in y
  }

  /**
   * merge: collects the strings of x and y as the keys of a map, lists the
   * keys in the map's (unspecified) iteration order and sorts the list.
   */
  method Merge(x: seq<Str>, y: seq<Str>) returns (o: seq<Str>)
    ensures IsMergeOf(o, x, y)
  {
    var keys: set<Str> := {};
    for i := 0 to |x|
      invariant forall s :: s in keys <==> s in x[..i]
    {
      keys := keys + {x[i]};
    }
    for i := 0 to |y|
      invariant forall s :: s in keys <==> s in x || s in y[..i]
    {
      keys := keys + {y[i]};
    }
    o := [];
    var rest := keys;
    while rest != {}
      invariant forall s :: s in keys <==> s in o || s in rest
      invariant forall s :: s in o ==> s !in rest
      invariant Distinct(o)
      decreases |rest|
    {
      var k :| k in rest;
      o := o + [k];
      rest := rest - {k};
    }
    var a := new Str[|o|](i requires 0 <= i < |o| => o[i]);
    assert a[..] == o;
    SortStrings(a);
    SameElements(o, a[..]);
    o := a[..];
    SortedDistinctIsStrict(o);
  }

  /** merge gives one answer: the result is determined by its contract. */
  lemma MergeDeterministic(o1: seq<Str>, o2: seq<Str>, x: seq<Str>, y: seq<Str>)
    requires IsMergeOf(o1, x, y) && IsMergeOf(o2, x, y)
    ensures o1 == o2
  {
    StrictlySortedUnique(o1, o2);
  }

  /** merge(x, y) == merge(y, x). */
  lemma MergeCommutes(o1: seq<Str>, o2: seq<Str>, x: seq<Str>, y: seq<Str>)
    requires IsMergeOf(o1, x, y) && IsMergeOf(o2, y, x)
    ensures o1 == o2
  {
    StrictlySortedUnique(o1, o2);
  }

  /** Merging a result again with either of its inputs gives it back. */
  lemma MergeAbsorbs(o: seq<Str>, o2: seq<Str>, x: seq<Str>, y: seq<Str>)
    requires IsMergeOf(o, x, y)
    requires IsMergeOf(o2, o, x) || IsMergeOf(o2, o, y)
    ensures o2 == o
  {
    StrictlySortedUnique(o, o2);
  }

  /** One entry of tasks.json: the Go struct `task` without its Name. */
  datatype TaskDef = TaskDef(description: Str, input: seq<Str>, output: seq<Str>)

  /** t2 is t with Input and Output sorted, nothing else changed. */
  ghost predicate SortedFrom(t2: TaskDef, t: TaskDef)
  {
    && t2.description == t.description
    && Sorted(t2.input) && multiset(t2.input) == multiset(t.input)
    && Sorted(t2.output) && multiset(t2.output) == multiset(t.output)
  }

  method SortedCopy(s: seq<Str>) returns (r: seq<Str>)
    ensures Sorted(r) && multiset(r) == multiset(s)
  {
    var a := new Str[|s|](i requires 0 <= i < |s| => s[i]);
    assert a[..] == s;
    SortStrings(a);
    r := a[..];
  }

  /**
   * The normalisation in main: for every task (in map order) sort its Input
   * and Output, collect the task names, then sort the names.
   */
  method Normalise(tasks: map<Str, TaskDef>) returns (sorted: map<Str, TaskDef>, names: seq<Str>)
    ensures sorted.Keys == tasks.Keys
    ensures forall k :: k in tasks ==> SortedFrom(sorted[k], tasks[k])
    ensures StrictlySorted(names)
    ensures forall k :: k in names <==> k in tasks
  {
    sorted := tasks;
    names := [];
    var rest := tasks.Keys;
    while rest != {}
      invariant rest <= tasks.Keys && sorted.Keys == tasks.Keys
      invariant forall k :: k in tasks && k !in rest ==> SortedFrom(sorted[k], tasks[k])
      invariant forall k :: k in rest ==> sorted[k] == tasks[k]
      invariant forall k :: k in tasks <==> k in names || k in rest
      invariant forall k :: k in names ==> k !in rest
      invariant Distinct(names)
      decreases |rest|
    {
      var k :| k in rest;
      var input := SortedCopy(sorted[k].input);
      var output := SortedCopy(sorted[k].output);
      sorted := sorted[k := sorted[k].(input := input, output := output)];
      names := names + [k];
      rest := rest - {k};
    }
    var a := new Str[|names|](i requires 0 <= i < |names| => names[i]);
    assert a[..] == names;
    SortStrings(a);
    SameElements(names, a[..]);
    names := a[..];
    SortedDistinctIsStrict(names);
  }

  /** Normalising an already normalised task changes nothing. */
  lemma NormaliseIdempotent(t: TaskDef, t1: TaskDef, t2: TaskDef)
    requires SortedFrom(t1, t) && SortedFrom(t2, t1)
    ensures t2 == t1
  {
    SortedUnique(t1.input, t2.input);
    SortedUnique(t1.output, t2.output);
  }

  /** The sorted task-name list is unique for a given set of task names. */
  lemma TaskNamesDeterministic(names1: seq<Str>, names2: seq<Str>, tasks: map<Str, TaskDef>)
    requires StrictlySorted(names1) && forall k :: k in names1 <==> k in tasks
    requires StrictlySorted(names2) && forall k :: k in names2 <==> k in tasks
    ensures names1 == names2
  {
    StrictlySortedUnique(names1, names2);
  }
}
