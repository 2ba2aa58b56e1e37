/** Header lists and match conditions: the parts of a route that Go builds by iterating
    over a map and then sorting. */
module Headers {
  import opened Text
  import opened Sorting
  import opened Model

  // ---- Header lists ----------------------------------------------------------------

  /** The entries of a header map, by ascending name. */
  ghost function HeaderList(m: map<string, string>): (hs: seq<HeaderValue>)
    ensures SortedBy(NameBefore, hs) && forall h :: h in hs <==> IsEntry(m, h)
    decreases |m|
  {
    if m == map[] then
      []
    else
      LeastExists(m.Keys);
      var k :| IsLeast(k, m.Keys);
      assert (m - {k}).Keys == m.Keys - {k};
      LeastEntryFirst(m, k, HeaderList(m - {k}));
      [HeaderValue(k, m[k])] + HeaderList(m - {k})
  }

  ghost predicate IsEntry(m: map<string, string>, h: HeaderValue) {
    h.name in m && m[h.name] == h.value
  }

  lemma LeastEntryFirst(m: map<string, string>, k: string, rest: seq<HeaderValue>)
    requires IsLeast(k, m.Keys)
    requires SortedBy(NameBefore, rest) && forall h :: h in rest <==> IsEntry(m - {k}, h)
    ensures SortedBy(NameBefore, [HeaderValue(k, m[k])] + rest)
    ensures forall h :: h in [HeaderValue(k, m[k])] + rest <==> IsEntry(m, h)
  {
    forall i | 0 <= i < |rest|
      ensures Less(k, rest[i].name)
    {
      assert rest[i] in rest && IsEntry(m - {k}, rest[i]);
    }
  }

  predicate NameBefore(a: HeaderValue, b: HeaderValue) {
    Less(a.name, b.name)
  }

  lemma NameBeforeIsAsymmetric()
    ensures Asymmetric(NameBefore)
  {
    LessIsAsymmetric();
  }

  /** What `sort.Slice` by name guarantees: no entry stands before one with a smaller name.
      Entries with equal names may come out in either order. */
  ghost predicate NameOrdered(hs: seq<HeaderValue>) {
    forall i, j :: 0 <= i < j < |hs| ==> !NameBefore(hs[j], hs[i])
  }

  lemma HeaderListSorted(m: map<string, string>)
    ensures SortedBy(NameBefore, HeaderList(m)) && NameOrdered(HeaderList(m))
  {
    NameBeforeIsAsymmetric();
  }

  /** Collecting a map's entries in any order and ordering them by name gives `HeaderList`. */
  lemma HeaderListUnique(m: map<string, string>, hs: seq<HeaderValue>)
    requires NameOrdered(hs) && multiset(hs) == multiset(HeaderList(m))
    ensures hs == HeaderList(m)
  {
    HeaderListSorted(m);
    OrderedUnique(hs, HeaderList(m));
  }

  ghost predicate NamesDetermine(hs: seq<HeaderValue>) {
    forall x, y :: x in hs && y in hs && x.name == y.name ==> x == y
  }

  lemma {:induction false} OrderedUnique(a: seq<HeaderValue>, b: seq<HeaderValue>)
    requires multiset(a) == multiset(b) && NameOrdered(a) && NameOrdered(b) && NamesDetermine(b)
    ensures a == b
  {
    assert |a| == |multiset(a)| == |b|;
    if a != [] {
      HeadsAgree(a, b);
      TailMultiset(a);
      TailMultiset(b);
      OrderedUnique(a[1..], b[1..]);
    }
  }

  lemma TailMultiset<T>(a: seq<T>)
    requires a != []
    ensures a == [a[0]] + a[1..] && multiset(a[1..]) == multiset(a) - multiset{a[0]}
  {
    assert a == [a[0]] + a[1..];
  }

  lemma HeadsAgree(a: seq<HeaderValue>, b: seq<HeaderValue>)
    requires a != [] && b != [] && multiset(a) == multiset(b)
    requires NameOrdered(a) && NameOrdered(b) && NamesDetermine(b)
    ensures a[0] == b[0]
  {
    assert a[0] in multiset(b) && b[0] in multiset(a);
    LessTotal(a[0].name, b[0].name);
  }

  /** Collects a map's entries in whatever order the iteration takes. */
  method CollectEntries(m: map<string, string>) returns (hs: seq<HeaderValue>)
    ensures multiset(hs) == multiset(HeaderList(m))
  {
    hs := [];
    var todo := m.Keys;
    while todo != {}
      invariant todo <= m.Keys
      invariant forall h :: multiset(hs)[h] == if h.name in m.Keys - todo && m[h.name] == h.value then 1 else 0
    {
      var k :| k in todo;
      hs := hs + [HeaderValue(k, m[k])];
      todo := todo - {k};
    }
    HeaderListSorted(m);
    NameBeforeIsAsymmetric();
    forall h: HeaderValue
      ensures multiset(hs)[h] == multiset(HeaderList(m))[h]
    {
      SortedOccurrence(NameBefore, HeaderList(m), h);
    }
  }

  lemma {:induction false} SortedOccurrence<T(!new)>(before: (T, T) -> bool, s: seq<T>, x: T)
    requires Asymmetric(before) && SortedBy(before, s)
    ensures multiset(s)[x] == if x in s then 1 else 0
  {
    if s != [] {
      assert s == [s[0]] + s[1..];
      TailMembers(before, s, x);
      SortedOccurrence(before, s[1..], x);
    }
  }

  /** `sort.Slice` by header name, as insertion. */
  method SortByName(hs: seq<HeaderValue>) returns (r: seq<HeaderValue>)
    ensures multiset(r) == multiset(hs) && NameOrdered(r)
  {
    NameBeforeIsAsymmetric();
    r := [];
    for i := 0 to |hs|
      invariant multiset(r) == multiset(hs[..i]) && NameOrdered(r)
    {
      var p := |r|;
      while p > 0 && NameBefore(hs[i], r[p - 1])
        invariant 0 <= p <= |r|
        invariant forall j :: p <= j < |r| ==> NameBefore(hs[i], r[j])
      {
        p := p - 1;
      }
      InsertionOrdered(r, p, hs[i]);
      assert r == r[..p] + r[p..];
      assert hs[..i + 1] == hs[..i] + [hs[i]];
      r := r[..p] + [hs[i]] + r[p..];
    }
    assert hs[..|hs|] == hs;
  }

  lemma InsertionOrdered(r: seq<HeaderValue>, p: nat, h: HeaderValue)
    requires p <= |r| && NameOrdered(r)
    requires p > 0 ==> !NameBefore(h, r[p - 1])
    requires forall j :: p <= j < |r| ==> !NameBefore(r[j], h)
    ensures NameOrdered(r[..p] + [h] + r[p..])
  {
    forall j | 0 <= j < p
      ensures !NameBefore(h, r[j])
    {
      if j < p - 1 {
        NotLessTransitive(r[j].name, r[p - 1].name, h.name);
      }
    }
  }

  // ---- Headers set before the split ------------------------------------------------

  const HOST := "Host"

  /** The entries gathered for a path: its AppendHeaders, plus the rewritten Host. */
  ghost function PreSplitEntries(path: Path): multiset<HeaderValue> {
    multiset(HeaderList(path.appendHeaders))
    + if path.rewriteHost != "" then multiset{HeaderValue(HOST, path.rewriteHost)} else multiset{}
  }

  /** Every list that the code may produce for a path, whatever the map iteration order and
      however the unstable sort breaks ties. */
  ghost predicate PreSplitAllowed(path: Path, hs: seq<HeaderValue>) {
    multiset(hs) == PreSplitEntries(path) && NameOrdered(hs)
  }

  /** The path appends a Host header of its own that differs from the rewritten one. */
  predicate HostConflict(path: Path) {
    path.rewriteHost != "" && HOST in path.appendHeaders && path.appendHeaders[HOST] != path.rewriteHost
  }

  /** The number of entries whose name is smaller than `name`. */
  ghost function Rank(hs: seq<HeaderValue>, name: string): (p: nat)
    ensures p <= |hs|
    ensures forall i :: 0 <= i < p ==> Less(hs[i].name, name)
    ensures p < |hs| ==> !Less(hs[p].name, name)
  {
    if hs == [] || !Less(hs[0].name, name) then 0 else 1 + Rank(hs[1..], name)
  }

  /** Inserts an entry before the first one whose name is not smaller. */
  ghost function Inserted(hs: seq<HeaderValue>, h: HeaderValue): seq<HeaderValue> {
    var p := Rank(hs, h.name);
    hs[..p] + [h] + hs[p..]
  }

  lemma InsertedOrdered(hs: seq<HeaderValue>, h: HeaderValue)
    requires NameOrdered(hs)
    ensures NameOrdered(Inserted(hs, h))
    ensures multiset(Inserted(hs, h)) == multiset(hs) + multiset{h}
  {
    hide Less, Rank;
    var p := Rank(hs, h.name);
    RankBound(hs, h.name);
    if p > 0 {
      LessAsymmetric(hs[p - 1].name, h.name);
    }
    InsertionOrdered(hs, p, h);
    InsertionKeeps(hs, p, h);
  }

  lemma InsertionKeeps(r: seq<HeaderValue>, p: nat, h: HeaderValue)
    requires p <= |r|
    ensures multiset(r[..p] + [h] + r[p..]) == multiset(r) + multiset{h}
  {
    assert r == r[..p] + r[p..];
  }

  lemma RankBound(hs: seq<HeaderValue>, name: string)
    requires NameOrdered(hs)
    ensures forall j :: Rank(hs, name) <= j < |hs| ==> !Less(hs[j].name, name)
  {
    var p := Rank(hs, name);
    forall j | p <= j < |hs|
      ensures !Less(hs[j].name, name)
    {
      if p < j {
        NotLessTransitive(name, hs[p].name, hs[j].name);
      }
    }
  }

  /** An entry whose name is already present can also stand behind the present one. */
  lemma InsertedOtherwise(hs: seq<HeaderValue>, h: HeaderValue, present: HeaderValue) returns (other: seq<HeaderValue>)
    requires SortedBy(NameBefore, hs) && NameOrdered(hs) && present in hs && present.name == h.name && present != h
    ensures NameOrdered(other) && multiset(other) == multiset(hs) + multiset{h} && other != Inserted(hs, h)
  {
    var q :| 0 <= q < |hs| && hs[q] == present;
    other := hs[..q + 1] + [h] + hs[q + 1..];
    LessIrreflexive(h.name);
    NameBeforeIsAsymmetric();
    InsertionOrdered(hs, q + 1, h);
    InsertionMultiset(hs, q + 1, h);
    RankOfPresent(hs, q);
    assert Inserted(hs, h)[q] == h;
  }

  lemma RankOfPresent(hs: seq<HeaderValue>, q: nat)
    requires SortedBy(NameBefore, hs) && q < |hs|
    ensures Rank(hs, hs[q].name) == q
  {
    var p := Rank(hs, hs[q].name);
    LessIrreflexive(hs[q].name);
    assert p < q ==> NameBefore(hs[p], hs[q]);
  }

  lemma InsertionMultiset<T>(r: seq<T>, p: nat, h: T)
    requires p <= |r|
    ensures multiset(r[..p] + [h] + r[p..]) == multiset(r) + multiset{h}
  {
    assert r == r[..p] + r[p..];
  }

  /** One allowed list; the only one when there is no conflict. */
  ghost function PreSplitHeaders(path: Path): seq<HeaderValue> {
    var hs := HeaderList(path.appendHeaders);
    if path.rewriteHost == "" then hs else Inserted(hs, HeaderValue(HOST, path.rewriteHost))
  }

  lemma PreSplitHeadersAllowed(path: Path)
    ensures PreSplitAllowed(path, PreSplitHeaders(path))
  {
    HeaderListSorted(path.appendHeaders);
    InsertedOrdered(HeaderList(path.appendHeaders), HeaderValue(HOST, path.rewriteHost));
  }

  lemma PreSplitNames(path: Path)
    requires !HostConflict(path)
    ensures NamesDetermine(PreSplitHeaders(path))
  {
    PreSplitHeadersAllowed(path);
    forall x | x in PreSplitHeaders(path)
      ensures IsEntry(path.appendHeaders, x) || (path.rewriteHost != "" && x == HeaderValue(HOST, path.rewriteHost))
    {
      MemberIsEntry(path, x, PreSplitHeaders(path));
    }
  }

  lemma MemberIsEntry(path: Path, x: HeaderValue, hs: seq<HeaderValue>)
    requires x in hs && multiset(hs) == PreSplitEntries(path)
    ensures IsEntry(path.appendHeaders, x) || (path.rewriteHost != "" && x == HeaderValue(HOST, path.rewriteHost))
  {
    assert x in multiset(hs);
    var entries := HeaderList(path.appendHeaders);
    assert x in multiset(entries) ==> x in entries;
  }

  /** The header list of a path is the same for every map iteration order exactly when its
      AppendHeaders do not carry a Host that conflicts with the rewritten one. */
  lemma PreSplitDeterministic(path: Path)
    ensures (forall hs :: PreSplitAllowed(path, hs) ==> hs == PreSplitHeaders(path)) <==> !HostConflict(path)
  {
    var m := path.appendHeaders;
    if HostConflict(path) {
      HeaderListSorted(m);
      var other := InsertedOtherwise(HeaderList(m), HeaderValue(HOST, path.rewriteHost), HeaderValue(HOST, m[HOST]));
      assert PreSplitAllowed(path, other);
    } else {
      forall hs | PreSplitAllowed(path, hs)
        ensures hs == PreSplitHeaders(path)
      {
        PreSplitUnique(path, hs);
      }
    }
  }

  lemma PreSplitUnique(path: Path, hs: seq<HeaderValue>)
    requires PreSplitAllowed(path, hs) && !HostConflict(path)
    ensures hs == PreSplitHeaders(path)
  {
    PreSplitHeadersAllowed(path);
    PreSplitNames(path);
    OrderedUnique(hs, PreSplitHeaders(path));
  }

  method MakePreSplitHeaders(path: Path) returns (hs: seq<HeaderValue>)
    ensures PreSplitAllowed(path, hs)
    ensures !HostConflict(path) ==> hs == PreSplitHeaders(path)
  {
    hs := CollectEntries(path.appendHeaders);
    if path.rewriteHost != "" {
      hs := hs + [HeaderValue(HOST, path.rewriteHost)];
    }
    hs := SortByName(hs);
    if !HostConflict(path) {
      PreSplitUnique(path, hs);
    }
  }

  // ---- Match conditions ------------------------------------------------------------

  function HeaderCondition(name: string, exact: string): MatchCondition {
    MatchCondition("", Some(HeaderValue(name, exact)))
  }

  /** One exact match per header, by descending name. */
  ghost function HeaderConditions(m: map<string, string>): (cs: seq<MatchCondition>)
    ensures SortedBy(ConditionBefore, cs)
    ensures forall c :: c in cs <==> IsHeaderCondition(m, c)
    decreases |m|
  {
    if m == map[] then
      []
    else
      LeastExists(m.Keys);
      var k :| IsLeast(k, m.Keys);
      assert (m - {k}).Keys == m.Keys - {k};
      LeastConditionLast(m, k, HeaderConditions(m - {k}));
      HeaderConditions(m - {k}) + [HeaderCondition(k, m[k])]
  }

  lemma LeastConditionLast(m: map<string, string>, k: string, rest: seq<MatchCondition>)
    requires IsLeast(k, m.Keys)
    requires SortedBy(ConditionBefore, rest) && forall c :: c in rest <==> IsHeaderCondition(m - {k}, c)
    ensures SortedBy(ConditionBefore, rest + [HeaderCondition(k, m[k])])
    ensures forall c :: c in rest + [HeaderCondition(k, m[k])] <==> IsHeaderCondition(m, c)
  {
    forall i | 0 <= i < |rest|
      ensures ConditionBefore(rest[i], HeaderCondition(k, m[k]))
    {
      assert rest[i] in rest && IsHeaderCondition(m - {k}, rest[i]);
    }
  }

  ghost predicate IsHeaderCondition(m: map<string, string>, c: MatchCondition) {
    c.prefix == "" && c.header.Some? && c.header.value.name in m && m[c.header.value.name] == c.header.value.value
  }

  ghost function PrefixConditions(path: string): seq<MatchCondition> {
    if path != "" then [MatchCondition(path, None)] else []
  }

  /** The conditions of a path: its prefix first, then its header matches by descending name. */
  ghost function Conditions(path: Path): seq<MatchCondition> {
    PrefixConditions(path.path) + HeaderConditions(path.headers)
  }

  /** The comparator handed to `sort.Slice`. It reads both headers when neither or both
      sides have a prefix, so it may only be called when those headers exist. */
  predicate ConditionLess(a: MatchCondition, b: MatchCondition)
    requires (a.prefix != "") == (b.prefix != "") ==> a.header.Some? && b.header.Some?
  {
    if a.prefix != "" && b.prefix == "" then true
    else if a.prefix == "" && b.prefix != "" then false
    else Less(b.header.value.name, a.header.value.name)
  }

  /** The strict order that the comparator computes. */
  predicate ConditionBefore(a: MatchCondition, b: MatchCondition) {
    || (a.prefix != "" && b.prefix == "")
    || (a.prefix == "" && b.prefix == "" && a.header.Some? && b.header.Some?
        && Less(b.header.value.name, a.header.value.name))
  }

  lemma ConditionBeforeIsAsymmetric()
    ensures Asymmetric(ConditionBefore)
  {
    LessIsAsymmetric();
  }

  /** Any two conditions at different positions can be compared, and differ in order. */
  ghost predicate Comparable(cs: seq<MatchCondition>) {
    forall i, j :: 0 <= i < j < |cs| ==> Distinguished(cs[i], cs[j])
  }

  ghost predicate Distinguished(a: MatchCondition, b: MatchCondition) {
    && ((a.prefix != "") == (b.prefix != "") ==> a.header.Some? && b.header.Some?)
    && (ConditionBefore(a, b) || ConditionBefore(b, a))
  }

  lemma ConditionBeforeTransitive(a: MatchCondition, b: MatchCondition, c: MatchCondition)
    requires ConditionBefore(a, b) && ConditionBefore(b, c)
    ensures ConditionBefore(a, c)
  {
    if a.prefix == "" {
      LessTransitive(c.header.value.name, b.header.value.name, a.header.value.name);
    }
  }

  /** `sort.Slice` with `ConditionLess`. The comparator is only ever called on conditions it
      may compare, so it never reads the missing header of the prefix condition. */
  method SortConditions(cs: seq<MatchCondition>) returns (r: seq<MatchCondition>)
    requires Comparable(cs)
    ensures SortedBy(ConditionBefore, r)
    ensures forall c :: c in r <==> c in cs
  {
    r := [];
    for i := 0 to |cs|
      invariant SortedBy(ConditionBefore, r)
      invariant forall c :: c in r <==> c in cs[..i]
    {
      assert forall j :: 0 <= j < |r| ==> r[j] in r;
      r := InsertCondition(r, cs[i]);
      assert cs[..i + 1] == cs[..i] + [cs[i]];
    }
    assert cs[..|cs|] == cs;
  }

  method InsertCondition(cs: seq<MatchCondition>, x: MatchCondition) returns (r: seq<MatchCondition>)
    requires SortedBy(ConditionBefore, cs)
    requires forall j :: 0 <= j < |cs| ==> Distinguished(cs[j], x)
    ensures SortedBy(ConditionBefore, r)
    ensures forall c :: c in r <==> c in cs || c == x
  {
    var p := 0;
    while p < |cs| && ConditionLess(cs[p], x)
      invariant 0 <= p <= |cs|
      invariant forall j :: 0 <= j < p ==> ConditionBefore(cs[j], x)
    {
      p := p + 1;
    }
    forall j | p <= j < |cs|
      ensures ConditionBefore(x, cs[j])
    {
      if p < j {
        ConditionBeforeTransitive(x, cs[p], cs[j]);
      }
    }
    r := cs[..p] + [x] + cs[p..];
    assert forall c :: c in cs <==> c in cs[..p] || c in cs[p..];
  }

  lemma ConditionsSorted(path: Path)
    ensures SortedBy(ConditionBefore, Conditions(path))
    ensures forall c :: c in Conditions(path) <==> IsCondition(path, c)
  {
    var cs := HeaderConditions(path.headers);
    assert forall i :: 0 <= i < |cs| ==> cs[i] in cs;
  }

  /** The prefix condition of a non-empty path, and one exact match per header. */
  ghost predicate IsCondition(path: Path, c: MatchCondition) {
    || (path.path != "" && c == MatchCondition(path.path, None))
    || IsHeaderCondition(path.headers, c)
  }

  method MakeConditions(path: Path) returns (cs: seq<MatchCondition>)
    ensures cs == Conditions(path)
  {
    cs := [];
    if path.path != "" {
      cs := cs + [MatchCondition(path.path, None)];
    }
    var todo := path.headers.Keys;
    while todo != {}
      invariant todo <= path.headers.Keys
      invariant forall c :: c in cs ==> IsCondition(path, c) && (c.header.Some? ==> c.header.value.name !in todo)
      invariant forall c :: IsCondition(path, c) && (c.header.Some? ==> c.header.value.name !in todo) ==> c in cs
      invariant Comparable(cs)
    {
      var k :| k in todo;
      var c := HeaderCondition(k, path.headers[k]);
      forall d | d in cs
        ensures Distinguished(d, c)
      {
        if d.header.Some? {
          LessTotal(d.header.value.name, k);
        }
      }
      cs := cs + [c];
      todo := todo - {k};
    }
    if |cs| > 1 {
      cs := SortConditions(cs);
    }
    ConditionsSorted(path);
    ConditionBeforeIsAsymmetric();
    SortedUnique(ConditionBefore, cs, Conditions(path));
  }
}
