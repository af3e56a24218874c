/** Grouping a repository listing into loadable quants: the answer is fixed by which
    files are listed, not by their order. */
module QuantCandidates {
  import opened Decimal
  import opened QuantNames
  import opened ShardNames
  import opened Sorting
  import opened Text

  datatype QuantFile = QuantFile(name: string, size: Option<nat>)

  datatype Candidate = Candidate(key: string, files: seq<string>, total: Option<nat>)

  // ----- which files belong together -----

  predicate Belongs(file: QuantFile, key: string, base: string) {
    !IsAuxiliary(file.name) && KeyOf(file.name) == Some(key) && ShardParts(file.name).base == base
  }

  function Members(files: seq<QuantFile>, key: string, base: string): seq<QuantFile> {
    if files == [] then []
    else (if Belongs(files[0], key, base) then [files[0]] else []) + Members(files[1..], key, base)
  }

  function ShardOfFile(file: QuantFile): Option<Shard> { ShardOf(file.name) }

  /** A set that can be loaded as published. */
  ghost predicate Loadable(parts: seq<QuantFile>) { Whole(Map(ShardOfFile, parts)) }

  function Sum(files: seq<QuantFile>): Option<nat> {
    if files == [] then Some(0)
    else if files[0].size.None? || Sum(files[1..]).None? then None
    else Some(files[0].size.value + Sum(files[1..]).value)
  }

  /** A total there is exactly when every size is known, and it is all of them together. */
  lemma {:induction false} SumReads(files: seq<QuantFile>, file: QuantFile)
    ensures Sum([]) == Some(0) && Sum([file]) == file.size
    ensures Sum(files + [file]) ==
      if Sum(files).None? || file.size.None? then None else Some(Sum(files).value + file.size.value)
    ensures Sum(files).Some? <==> forall f <- files :: f.size.Some?
  {
    assert [file][1..] == [];
    if files == [] {
      assert files + [file] == [file];
    } else {
      assert (files + [file])[0] == files[0] && (files + [file])[1..] == files[1..] + [file];
      assert files == [files[0]] + files[1..];
      SumReads(files[1..], file);
    }
  }

  function NameOf(file: QuantFile): string { file.name }

  // ----- the order of names -----

  predicate Less(a: string, b: string) {
    b != [] && (a == [] || a[0] < b[0] || (a[0] == b[0] && Less(a[1..], b[1..])))
  }

  lemma {:induction false} LessTotal(a: string, b: string)
    ensures Less(a, b) || a == b || Less(b, a)
    ensures !(Less(a, b) && Less(b, a)) && (Less(a, b) ==> a != b)
  {
    if a != [] && b != [] {
      LessTotal(a[1..], b[1..]);
      assert a == [a[0]] + a[1..] && b == [b[0]] + b[1..];
    }
  }

  lemma {:induction false} LessTransitive(a: string, b: string, c: string)
    requires Less(a, b) && Less(b, c)
    ensures Less(a, c)
  {
    if a != [] && a[0] == b[0] == c[0] {
      LessTransitive(a[1..], b[1..], c[1..]);
    }
  }

  ghost predicate InOrder(keys: seq<string>) {
    forall i, j :: 0 <= i < j < |keys| ==> Less(keys[i], keys[j])
  }

  // ----- the answer -----

  /** Fewer qualifiers first, then the first name. */
  predicate Before(a: string, b: string) {
    Qualifiers(a) < Qualifiers(b) || (Qualifiers(a) == Qualifiers(b) && Less(a, b))
  }

  ghost predicate Chosen(files: seq<QuantFile>, key: string, base: string) {
    Loadable(Members(files, key, base)) &&
    forall other :: other != base && Loadable(Members(files, key, other)) ==> Before(base, other)
  }

  /** The files of one set, shard `i + 1` at position `i`. */
  ghost predicate Numbered(parts: seq<QuantFile>, order: seq<QuantFile>) {
    multiset(order) == multiset(parts) && forall i :: 0 <= i < |order| ==> ShardIndex(order[i].name) == i + 1
  }

  ghost predicate Describes(files: seq<QuantFile>, c: Candidate, base: string, order: seq<QuantFile>) {
    Chosen(files, c.key, base) && Numbered(Members(files, c.key, base), order) &&
    c.files == Map(NameOf, order) && c.total == Sum(order)
  }

  ghost predicate Right(files: seq<QuantFile>, c: Candidate) {
    exists base, order :: Describes(files, c, base, order)
  }

  ghost predicate Offered(files: seq<QuantFile>, key: string) {
    exists base :: Loadable(Members(files, key, base))
  }

  function Key(c: Candidate): string { c.key }

  ghost predicate IsAnswer(files: seq<QuantFile>, candidates: seq<Candidate>) {
    InOrder(Map(Key, candidates)) &&
    (forall c <- candidates :: Right(files, c)) &&
    forall key :: Offered(files, key) ==> key in Map(Key, candidates)
  }

  // ----- the answer does not depend on the order of the listing -----

  lemma {:induction false} MembersCount(files: seq<QuantFile>, key: string, base: string, x: QuantFile)
    ensures multiset(Members(files, key, base))[x] == if Belongs(x, key, base) then multiset(files)[x] else 0
  {
    if files != [] {
      MembersCount(files[1..], key, base, x);
      assert files == [files[0]] + files[1..];
    }
  }

  lemma MembersPermute(files: seq<QuantFile>, files': seq<QuantFile>, key: string, base: string)
    requires multiset(files) == multiset(files')
    ensures multiset(Members(files, key, base)) == multiset(Members(files', key, base))
  {
    forall x ensures multiset(Members(files, key, base))[x] == multiset(Members(files', key, base))[x] {
      MembersCount(files, key, base, x);
      MembersCount(files', key, base, x);
    }
  }

  lemma SameShards(a: seq<QuantFile>, b: seq<QuantFile>, shard: Option<Shard>)
    requires multiset(a) == multiset(b) && shard in Map(ShardOfFile, a)
    ensures shard in Map(ShardOfFile, b)
  {
    var i :| 0 <= i < |a| && Map(ShardOfFile, a)[i] == shard;
    assert a[i] in multiset(b);
    var j :| 0 <= j < |b| && b[j] == a[i];
    assert Map(ShardOfFile, b)[j] == shard;
  }

  lemma LoadablePermutes(a: seq<QuantFile>, b: seq<QuantFile>)
    requires multiset(a) == multiset(b) && Loadable(a)
    ensures Loadable(b)
  {
    assert |a| == |multiset(a)| == |multiset(b)| == |b|;
    var s, t := Map(ShardOfFile, a), Map(ShardOfFile, b);
    if s == [None] {
      SameShards(a, b, None);
      assert t == [None];
    } else {
      forall i | 1 <= i <= |t| ensures Some(Shard(i, |t|)) in t {
        SameShards(a, b, Some(Shard(i, |t|)));
      }
    }
  }

  lemma LoadableEither(files: seq<QuantFile>, files': seq<QuantFile>, key: string, base: string)
    requires multiset(files) == multiset(files')
    ensures Loadable(Members(files, key, base)) <==> Loadable(Members(files', key, base))
  {
    MembersPermute(files, files', key, base);
    var a, b := Members(files, key, base), Members(files', key, base);
    if Loadable(a) { LoadablePermutes(a, b); }
    if Loadable(b) { LoadablePermutes(b, a); }
  }

  lemma ChosenIsUnique(files: seq<QuantFile>, files': seq<QuantFile>, key: string, base: string, base': string)
    requires multiset(files) == multiset(files') && Chosen(files, key, base) && Chosen(files', key, base')
    ensures base == base'
  {
    LoadableEither(files, files', key, base);
    LoadableEither(files, files', key, base');
    LessTotal(base, base');
  }

  lemma NumberedIsUnique(order: seq<QuantFile>, order': seq<QuantFile>)
    requires multiset(order) == multiset(order')
    requires forall i :: 0 <= i < |order| ==> ShardIndex(order[i].name) == i + 1
    requires forall i :: 0 <= i < |order'| ==> ShardIndex(order'[i].name) == i + 1
    ensures order == order'
  {
    assert |order| == |multiset(order)| == |multiset(order')| == |order'|;
    forall i | 0 <= i < |order| ensures order[i] == order'[i] {
      assert order[i] in multiset(order');
      var j :| 0 <= j < |order'| && order'[j] == order[i];
    }
  }

  lemma RightIsUnique(files: seq<QuantFile>, files': seq<QuantFile>, c: Candidate, c': Candidate)
    requires multiset(files) == multiset(files') && c.key == c'.key && Right(files, c) && Right(files', c')
    ensures c == c'
  {
    var base, order :| Describes(files, c, base, order);
    var base', order' :| Describes(files', c', base', order');
    ChosenIsUnique(files, files', c.key, base, base');
    MembersPermute(files, files', c.key, base);
    NumberedIsUnique(order, order');
  }

  lemma FirstIsLeast(keys: seq<string>, key: string)
    requires InOrder(keys) && key in keys
    ensures keys[0] == key || Less(keys[0], key)
  {
  }

  lemma NonEmptyHas(keys: seq<string>)
    ensures keys != [] ==> exists key :: key in keys
  {
    if keys != [] { assert keys[0] in keys; }
  }

  /** A set of names has one order. */
  lemma {:induction false} OneOrder(s: seq<string>, t: seq<string>)
    requires InOrder(s) && InOrder(t) && forall key :: key in s <==> key in t
    ensures s == t
  {
    if s == [] {
      NonEmptyHas(t);
    } else {
      assert s[0] in t && t != [] && t[0] in s;
      FirstIsLeast(s, t[0]);
      FirstIsLeast(t, s[0]);
      LessTotal(s[0], t[0]);
      RestSame(s, t);
      OneOrder(s[1..], t[1..]);
      assert s == [s[0]] + s[1..] && t == [t[0]] + t[1..];
    }
  }

  lemma RestSame(s: seq<string>, t: seq<string>)
    requires s != [] && t != [] && s[0] == t[0] && InOrder(s) && InOrder(t)
    requires forall key :: key in s <==> key in t
    ensures forall key :: key in s[1..] <==> key in t[1..]
  {
    forall key ensures key in s[1..] <==> key in t[1..] {
      InRest(s, key);
      InRest(t, key);
    }
  }

  lemma InRest(s: seq<string>, key: string)
    requires s != [] && InOrder(s)
    ensures key in s[1..] <==> key in s && key != s[0]
  {
    assert s == [s[0]] + s[1..];
    LessTotal(s[0], key);
  }

  lemma KeyIn(candidates: seq<Candidate>, i: nat)
    requires i < |candidates|
    ensures candidates[i].key == Map(Key, candidates)[i] && candidates[i].key in Map(Key, candidates)
  {
    assert Map(Key, candidates)[i] == Key(candidates[i]);
  }

  lemma InKeys(candidates: seq<Candidate>, key: string) returns (i: nat)
    requires key in Map(Key, candidates)
    ensures i < |candidates| && candidates[i].key == key && candidates[i] in candidates
  {
    var keys := Map(Key, candidates);
    i :| 0 <= i < |keys| && keys[i] == key;
  }

  lemma OfferedEither(files: seq<QuantFile>, files': seq<QuantFile>, key: string)
    requires multiset(files) == multiset(files') && Offered(files, key)
    ensures Offered(files', key)
  {
    var base :| Loadable(Members(files, key, base));
    LoadableEither(files, files', key, base);
  }

  lemma ListedIsOffered(files: seq<QuantFile>, candidates: seq<Candidate>, key: string)
    requires IsAnswer(files, candidates)
    ensures key in Map(Key, candidates) <==> Offered(files, key)
  {
    if key in Map(Key, candidates) {
      var i := InKeys(candidates, key);
      var base, order :| Describes(files, candidates[i], base, order);
    }
  }

  /** Two listings of the same files have one and the same answer. */
  lemma AnswerIsUnique(files: seq<QuantFile>, files': seq<QuantFile>, r: seq<Candidate>, r': seq<Candidate>)
    requires multiset(files) == multiset(files') && IsAnswer(files, r) && IsAnswer(files', r')
    ensures r == r'
  {
    var keys, keys' := Map(Key, r), Map(Key, r');
    forall key ensures key in keys <==> key in keys' {
      ListedIsOffered(files, r, key);
      ListedIsOffered(files', r', key);
      if Offered(files, key) { OfferedEither(files, files', key); }
      if Offered(files', key) { OfferedEither(files', files, key); }
    }
    OneOrder(keys, keys');
    forall i | 0 <= i < |r| ensures r[i] == r'[i] {
      KeyIn(r, i);
      KeyIn(r', i);
      RightIsUnique(files, files', r[i], r'[i]);
    }
  }

  // ----- grouping -----

  type Groups = map<string, map<string, seq<QuantFile>>>

  function SetOf(sets: map<string, seq<QuantFile>>, base: string): seq<QuantFile> {
    if base in sets then sets[base] else []
  }

  function SetsOf(groups: Groups, key: string): map<string, seq<QuantFile>> {
    if key in groups then groups[key] else map[]
  }

  ghost predicate Grouped(groups: Groups, files: seq<QuantFile>) {
    forall key, base :: SetOf(SetsOf(groups, key), base) == Members(files, key, base)
  }

  lemma {:induction false} MembersAppend(files: seq<QuantFile>, file: QuantFile, key: string, base: string)
    ensures Members(files + [file], key, base) ==
            Members(files, key, base) + if Belongs(file, key, base) then [file] else []
  {
    if files == [] {
      assert files + [file] == [file] && [file][1..] == [];
    } else {
      assert (files + [file])[0] == files[0] && (files + [file])[1..] == files[1..] + [file];
      MembersAppend(files[1..], file, key, base);
      Assoc(if Belongs(files[0], key, base) then [files[0]] else [], Members(files[1..], key, base),
            if Belongs(file, key, base) then [file] else []);
    }
  }

  method GroupFiles(files: seq<QuantFile>) returns (groups: Groups)
    ensures Grouped(groups, files)
  {
    groups := map[];
    for n := 0 to |files|
      invariant Grouped(groups, files[..n])
    {
      groups := AddFile(groups, files[n], files[..n]);
      assert files[..n + 1] == files[..n] + [files[n]];
    }
    assert files[..|files|] == files;
  }

  method AddFile(groups: Groups, file: QuantFile, ghost before: seq<QuantFile>) returns (r: Groups)
    requires Grouped(groups, before)
    ensures Grouped(r, before + [file])
  {
    hide IsAuxiliary, KeyOf, ShardParts;
    r := groups;
    var key := KeyOf(file.name);
    if !IsAuxiliary(file.name) && key.Some? {
      var base, sets := ShardParts(file.name).base, SetsOf(groups, key.value);
      r := groups[key.value := sets[base := SetOf(sets, base) + [file]]];
    }
    forall k, b ensures SetOf(SetsOf(r, k), b) == Members(before + [file], k, b) {
      MembersAppend(before, file, k, b);
    }
  }

  // ----- one set per key -----

  function InsertKey(key: string, keys: seq<string>): seq<string> {
    if keys == [] || Less(key, keys[0]) then [key] + keys else [keys[0]] + InsertKey(key, keys[1..])
  }

  lemma {:induction false} InsertKeyOrders(key: string, keys: seq<string>)
    requires InOrder(keys) && key !in keys
    ensures InOrder(InsertKey(key, keys))
    ensures forall k :: k in InsertKey(key, keys) <==> k == key || k in keys
  {
    if keys == [] {
    } else if Less(key, keys[0]) {
      forall j | 0 <= j < |keys| ensures Less(key, keys[j]) {
        if j > 0 { LessTransitive(key, keys[0], keys[j]); }
      }
    } else {
      var rest := InsertKey(key, keys[1..]);
      InsertKeyOrders(key, keys[1..]);
      assert keys == [keys[0]] + keys[1..];
      LessTotal(key, keys[0]);
      forall j | 0 <= j < |rest| ensures Less(keys[0], rest[j]) {
        assert rest[j] in rest;
        if rest[j] != key { FirstIsLeast(keys, rest[j]); }
      }
    }
  }

  /** The order in which the maps are walked. */
  method SortedKeys(names: set<string>) returns (keys: seq<string>)
    ensures InOrder(keys) && forall k :: k in keys <==> k in names
  {
    keys := [];
    var left := names;
    while left != {}
      invariant InOrder(keys) && left <= names
      invariant forall k :: k in names <==> k in left || k in keys
      invariant forall k :: k in keys ==> k !in left
      decreases |left|
    {
      var name :| name in left;
      InsertKeyOrders(name, keys);
      keys := InsertKey(name, keys);
      left := left - {name};
    }
  }

  method IsLoadable(parts: seq<QuantFile>) returns (complete: bool)
    ensures complete <==> Loadable(parts)
  {
    complete := IsCompleteSet(Map(ShardOfFile, parts));
  }

  /** The best of the named sets. */
  ghost predicate Best(sets: map<string, seq<QuantFile>>, names: set<string>, best: Option<string>) {
    match best
    case None => forall b <- names :: !Loadable(SetOf(sets, b))
    case Some(base) =>
      base in names && Loadable(SetOf(sets, base)) &&
      forall b <- names :: b != base && Loadable(SetOf(sets, b)) ==> Before(base, b)
  }

  function Better(best: Option<string>, base: string): Option<string> {
    if best.None? || Qualifiers(base) < Qualifiers(best.value) then Some(base) else best
  }

  lemma BestSoFar(sets: map<string, seq<QuantFile>>, names: set<string>, best: Option<string>, base: string)
    requires Best(sets, names, best) && Loadable(SetOf(sets, base)) && forall b <- names :: Less(b, base)
    ensures Best(sets, names + {base}, Better(best, base))
  {
  }

  /** The least qualified complete set, ties to the first name. */
  method ChooseSet(sets: map<string, seq<QuantFile>>) returns (best: Option<string>)
    ensures Best(sets, sets.Keys, best)
  {
    best := None;
    var keys := SortedKeys(sets.Keys);
    ghost var walked: set<string> := {};
    for n := 0 to |keys|
      invariant Best(sets, walked, best)
      invariant forall b :: b in walked <==> b in keys[..n]
    {
      assert keys[n] in keys;
      assert keys[..n + 1] == keys[..n] + [keys[n]];
      var complete := IsLoadable(sets[keys[n]]);
      if complete {
        BestSoFar(sets, walked, best, keys[n]);
        best := Better(best, keys[n]);
      }
      walked := walked + {keys[n]};
    }
    assert keys[..|keys|] == keys;
    assert walked == sets.Keys;
  }

  lemma ChosenIsBest(sets: map<string, seq<QuantFile>>, files: seq<QuantFile>, key: string, best: Option<string>)
    requires Best(sets, sets.Keys, best)
    requires forall b :: SetOf(sets, b) == Members(files, key, b)
    ensures best.None? ==> !Offered(files, key)
    ensures best.Some? ==> Chosen(files, key, best.value)
  {
    forall b | b !in sets ensures !Loadable(Members(files, key, b)) {
      assert SetOf(sets, b) == [];
    }
  }

  // ----- the files of a set in order -----

  function IndexOfFile(file: QuantFile): nat { ShardIndex(file.name) }

  /** Sorting a whole set puts every shard in its place. */
  lemma AscendingWhole<T>(order: seq<T>, index: T -> nat, shard: T -> Option<Shard>)
    requires AscendingBy(index, order) && Whole(Map(shard, order))
    requires forall x :: index(x) == if shard(x).Some? then shard(x).value.index else 1
    ensures forall i :: 0 <= i < |order| ==> index(order[i]) == i + 1
  {
    var shards, indexes := Map(shard, order), Map(index, order);
    assert forall i :: 0 <= i < |order| ==> shards[i] == shard(order[i]) && indexes[i] == index(order[i]);
    if shards != [None] {
      forall i | 1 <= i <= |order| ensures i in indexes {
        assert Some(Shard(i, |order|)) in shards;
        var j :| 0 <= j < |shards| && shards[j] == Some(Shard(i, |order|));
        assert indexes[j] == i;
      }
      AscendingFull(indexes);
    }
  }

  lemma {:induction false} SortedIsNumbered(parts: seq<QuantFile>)
    requires Loadable(parts)
    ensures Numbered(parts, SortBy(IndexOfFile, parts))
  {
    var order := SortBy(IndexOfFile, parts);
    SortOrders(IndexOfFile, parts);
    LoadablePermutes(parts, order);
    AscendingWhole(order, IndexOfFile, ShardOfFile);
    assert forall i :: 0 <= i < |order| ==> ShardIndex(order[i].name) == IndexOfFile(order[i]);
  }

  /** The sizes are added up until one is missing. */
  method TotalSize(files: seq<QuantFile>) returns (total: Option<nat>)
    ensures total == Sum(files)
  {
    var sum, n := 0, 0;
    assert files[0..] == files;
    while n < |files|
      invariant n <= |files|
      invariant Sum(files) == if Sum(files[n..]).None? then None else Some(sum + Sum(files[n..]).value)
    {
      assert files[n..][0] == files[n] && files[n..][1..] == files[n + 1..];
      if files[n].size.None? {
        return None;
      }
      sum := sum + files[n].size.value;
      n := n + 1;
    }
    total := Some(sum);
  }

  method Describe(key: string, base: string, parts: seq<QuantFile>, ghost files: seq<QuantFile>) returns (c: Candidate)
    requires parts == Members(files, key, base) && Chosen(files, key, base)
    ensures c.key == key && Right(files, c)
  {
    var order := SortBy(IndexOfFile, parts);
    SortedIsNumbered(parts);
    var total := TotalSize(order);
    c := Candidate(key, Map(NameOf, order), total);
    assert Describes(files, c, base, order);
  }

  ghost predicate AnswerUpTo(files: seq<QuantFile>, candidates: seq<Candidate>, keys: seq<string>) {
    InOrder(Map(Key, candidates)) && (forall c <- candidates :: Right(files, c) && c.key in keys) &&
    forall key <- keys :: Offered(files, key) ==> key in Map(Key, candidates)
  }

  lemma AnswerAdd(files: seq<QuantFile>, candidates: seq<Candidate>, keys: seq<string>, c: Candidate)
    requires AnswerUpTo(files, candidates, keys) && Right(files, c) && forall key <- keys :: Less(key, c.key)
    ensures AnswerUpTo(files, candidates + [c], keys + [c.key])
  {
    MapAppend(Key, candidates, [c]);
    MapOne(Key, c);
    forall i | 0 <= i < |candidates| ensures Less(Map(Key, candidates)[i], c.key) {
      KeyIn(candidates, i);
      assert candidates[i] in candidates;
    }
  }

  lemma AnswerSkip(files: seq<QuantFile>, candidates: seq<Candidate>, keys: seq<string>, key: string)
    requires AnswerUpTo(files, candidates, keys) && !Offered(files, key)
    ensures AnswerUpTo(files, candidates, keys + [key])
  {
  }

  lemma AnswerComplete(files: seq<QuantFile>, candidates: seq<Candidate>, keys: seq<string>, groups: Groups)
    requires AnswerUpTo(files, candidates, keys) && Grouped(groups, files) && forall k :: k in keys <==> k in groups
    ensures IsAnswer(files, candidates)
  {
    forall key | Offered(files, key) ensures key in Map(Key, candidates) {
      var base :| Loadable(Members(files, key, base));
      assert SetOf(SetsOf(groups, key), base) == Members(files, key, base);
      assert key in groups;
    }
  }

  /** Every quant of the listing that can be loaded, and the files to load for it. */
  method Candidates(files: seq<QuantFile>) returns (candidates: seq<Candidate>)
    ensures IsAnswer(files, candidates)
  {
    var groups := GroupFiles(files);
    var keys := SortedKeys(groups.Keys);
    candidates := [];
    for n := 0 to |keys|
      invariant AnswerUpTo(files, candidates, keys[..n])
    {
      var key := keys[n];
      assert key in keys;
      var sets := groups[key];
      assert forall b :: SetOf(sets, b) == SetOf(SetsOf(groups, key), b);
      var best := ChooseSet(sets);
      ChosenIsBest(sets, files, key, best);
      assert keys[..n + 1] == keys[..n] + [key];
      if best.Some? {
        var c := Describe(key, best.value, sets[best.value], files);
        AnswerAdd(files, candidates, keys[..n], c);
        candidates := candidates + [c];
      } else {
        AnswerSkip(files, candidates, keys[..n], key);
      }
    }
    assert keys[..|keys|] == keys;
    AnswerComplete(files, candidates, keys, groups);
  }
}
