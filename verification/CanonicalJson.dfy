/** The canonical form of a JSON request: members that are undefined are dropped and the rest are sorted by
  * key, at every depth, before the request is fingerprinted. */
module CanonicalJson {
  import opened Options

  datatype Json =
    | Undefined | Null | Bool(bool) | Number(int) | String(string)
    | Array(items: seq<Json>) | Object(members: seq<Member>)

  datatype Member = Member(key: string, value: Json)

  /** How keys compare: the sort's comparison, and the runtime's own rule, by which keys that are array
    * indices come first, in numeric order, whatever the order of insertion. */
  datatype Keys = Keys(less: (string, string) -> bool, isIndex: string -> bool, indexLess: (string, string) -> bool)

  /** A comparison that may tie distinct keys, as one by locale does: keys it ties are tied with the same keys. */
  ghost predicate StrictWeak(less: (string, string) -> bool) {
    && (forall a, b :: less(a, b) ==> !less(b, a))
    && (forall a, b, c :: less(a, c) ==> less(a, b) || less(b, c))
  }

  /** The sort's comparison orders keys up to ties; the runtime's order tells any two array indices apart. */
  ghost predicate Orders(k: Keys) {
    && StrictWeak(k.less) && StrictWeak(k.indexLess)
    && forall a, b :: k.isIndex(a) && k.isIndex(b) && a != b ==> k.indexLess(a, b) || k.indexLess(b, a)
  }

  // ---------------------------------------------------------------- the canonical form

  function Defined(members: seq<Member>): (r: seq<Member>)
    ensures forall m :: m in r <==> m in members && m.value != Undefined
  {
    if members == [] then []
    else if members[0].value == Undefined then Defined(members[1..])
    else [members[0]] + Defined(members[1..])
  }

  function Insert(less: (string, string) -> bool, m: Member, sorted: seq<Member>): (r: seq<Member>)
    ensures forall x :: x in r <==> x == m || x in sorted
  {
    if sorted == [] then [m]
    else if less(sorted[0].key, m.key) then [sorted[0]] + Insert(less, m, sorted[1..])
    else [m] + sorted
  }

  function Sort(less: (string, string) -> bool, members: seq<Member>): (r: seq<Member>)
    ensures forall x :: x in r <==> x in members
  {
    if members == [] then [] else Insert(less, members[0], Sort(less, members[1..]))
  }

  function Indices(k: Keys, members: seq<Member>): (r: seq<Member>)
    ensures forall m :: m in r <==> m in members && k.isIndex(m.key)
  {
    if members == [] then []
    else if k.isIndex(members[0].key) then [members[0]] + Indices(k, members[1..])
    else Indices(k, members[1..])
  }

  function Names(k: Keys, members: seq<Member>): (r: seq<Member>)
    ensures forall m :: m in r <==> m in members && !k.isIndex(m.key)
  {
    if members == [] then []
    else if k.isIndex(members[0].key) then Names(k, members[1..])
    else [members[0]] + Names(k, members[1..])
  }

  /** An object built from entries, listed as the runtime enumerates it. */
  function FromEntries(k: Keys, members: seq<Member>): (r: seq<Member>)
    ensures forall m :: m in r <==> m in members
  {
    Sort(k.indexLess, Indices(k, members)) + Names(k, members)
  }

  function Canonical(k: Keys, v: Json): Json
    decreases v
  {
    match v
    case Array(items) => Array(seq(|items|, i requires 0 <= i < |items| => Canonical(k, items[i])))
    case Object(members) =>
      var sorted := Sort(k.less, Defined(members));
      assert forall m :: m in sorted ==> m in members;
      Object(FromEntries(k, seq(|sorted|, i requires 0 <= i < |sorted| =>
        assert sorted[i] in members;
        Member(sorted[i].key, Canonical(k, sorted[i].value)))))
    case _ => v
  }

  // ---------------------------------------------------------------- equality up to order and undefined members

  /** Equal up to the order of members and members that are undefined, at every depth. */
  ghost predicate Same(a: Json, b: Json)
    decreases a
  {
    if a.Array? && b.Array? then
      |a.items| == |b.items| && forall i :: 0 <= i < |a.items| ==> Same(a.items[i], b.items[i])
    else if a.Object? && b.Object? then
      && (forall m :: m in a.members && m.value != Undefined ==>
            exists n :: n in b.members && n.value != Undefined && n.key == m.key && Same(m.value, n.value))
      && (forall n :: n in b.members && n.value != Undefined ==>
            exists m :: m in a.members && m.value != Undefined && m.key == n.key)
    else a == b
  }

  ghost predicate DistinctKeys(members: seq<Member>) {
    forall i, j :: 0 <= i < j < |members| ==> members[i].key != members[j].key
  }

  /** No object holds a key twice. */
  ghost predicate WellFormed(v: Json)
    decreases v
  {
    match v
    case Array(items) => forall i :: 0 <= i < |items| ==> WellFormed(items[i])
    case Object(members) => DistinctKeys(members) && forall m :: m in members ==> WellFormed(m.value)
    case _ => true
  }

  /** The comparison ties no two different keys of the object, array indices aside. */
  ghost predicate NoTiedKeys(k: Keys, members: seq<Member>) {
    forall m, n :: m in members && n in members && m.value != Undefined && n.value != Undefined ==> !Tied(k, m.key, n.key)
  }

  predicate Tied(k: Keys, a: string, b: string) {
    a != b && !k.isIndex(a) && !k.isIndex(b) && !k.less(a, b) && !k.less(b, a)
  }

  /** No object of the request has two tied keys, at any depth. */
  ghost predicate NoTies(k: Keys, v: Json)
    decreases v
  {
    match v
    case Array(items) => forall i :: 0 <= i < |items| ==> NoTies(k, items[i])
    case Object(members) => NoTiedKeys(k, members) && forall m :: m in members ==> NoTies(k, m.value)
    case _ => true
  }

  // ---------------------------------------------------------------- sorting

  ghost predicate SortedBy(less: (string, string) -> bool, members: seq<Member>) {
    forall i, j :: 0 <= i < j < |members| ==> less(members[i].key, members[j].key)
  }

  /** Sorted up to ties. */
  ghost predicate SortedUpTo(less: (string, string) -> bool, members: seq<Member>) {
    forall i, j :: 0 <= i < j < |members| ==> !less(members[j].key, members[i].key)
  }

  lemma {:induction false} InsertSorts(less: (string, string) -> bool, m: Member, sorted: seq<Member>)
    requires StrictWeak(less) && SortedUpTo(less, sorted)
    ensures SortedUpTo(less, Insert(less, m, sorted))
  {
    if sorted != [] {
      if less(sorted[0].key, m.key) {
        InsertSorts(less, m, sorted[1..]);
        var rest := Insert(less, m, sorted[1..]);
        forall j | 0 <= j < |rest| ensures !less(rest[j].key, sorted[0].key) {
          assert rest[j] in rest;
        }
      } else {
        NotBelow(less, m, sorted);
      }
    }
  }

  lemma NotBelow(less: (string, string) -> bool, m: Member, sorted: seq<Member>)
    requires StrictWeak(less) && SortedUpTo(less, sorted) && sorted != [] && !less(sorted[0].key, m.key)
    ensures forall x :: x in sorted ==> !less(x.key, m.key)
  {
    forall j | 0 <= j < |sorted| ensures !less(sorted[j].key, m.key) {
      assert j > 0 ==> !less(sorted[j].key, sorted[0].key);
    }
  }

  lemma {:induction false} SortSorts(less: (string, string) -> bool, members: seq<Member>)
    requires StrictWeak(less)
    ensures SortedUpTo(less, Sort(less, members))
  {
    if members != [] {
      SortSorts(less, members[1..]);
      InsertSorts(less, members[0], Sort(less, members[1..]));
    }
  }

  lemma {:induction false} InsertDistinct(less: (string, string) -> bool, m: Member, sorted: seq<Member>)
    requires DistinctKeys(sorted) && forall x :: x in sorted ==> x.key != m.key
    ensures DistinctKeys(Insert(less, m, sorted))
  {
    if sorted != [] && less(sorted[0].key, m.key) {
      assert forall x :: x in sorted[1..] ==> x in sorted && x.key != sorted[0].key;
      InsertDistinct(less, m, sorted[1..]);
      var rest := Insert(less, m, sorted[1..]);
      assert forall j :: 0 <= j < |rest| ==> rest[j] in rest;
    }
  }

  lemma {:induction false} SortDistinct(less: (string, string) -> bool, members: seq<Member>)
    requires DistinctKeys(members)
    ensures DistinctKeys(Sort(less, members))
  {
    if members != [] {
      SortDistinct(less, members[1..]);
      assert forall x :: x in members[1..] ==> x.key != members[0].key;
      InsertDistinct(less, members[0], Sort(less, members[1..]));
    }
  }

  /** Where distinct keys are not tied, sorted up to ties is sorted. */
  lemma Strictly(less: (string, string) -> bool, members: seq<Member>)
    requires SortedUpTo(less, members) && DistinctKeys(members)
    requires forall m, n :: m in members && n in members && m.key != n.key ==> less(m.key, n.key) || less(n.key, m.key)
    ensures SortedBy(less, members)
  {
  }

  /** What is sorted up to ties already stays as it is. */
  lemma {:induction false} SortedStays(less: (string, string) -> bool, members: seq<Member>)
    requires SortedUpTo(less, members)
    ensures Sort(less, members) == members
  {
    if members != [] {
      SortedStays(less, members[1..]);
    }
  }

  lemma {:induction false} NamesOfInsert(k: Keys, m: Member, sorted: seq<Member>)
    requires StrictWeak(k.less) && SortedUpTo(k.less, sorted)
    ensures Names(k, Insert(k.less, m, sorted))
            == if k.isIndex(m.key) then Names(k, sorted) else Insert(k.less, m, Names(k, sorted))
  {
    if sorted != [] {
      if k.less(sorted[0].key, m.key) {
        NamesOfInsert(k, m, sorted[1..]);
        var rest := Insert(k.less, m, sorted[1..]);
        assert ([sorted[0]] + rest)[1..] == rest;
        var names := Names(k, sorted[1..]);
        assert ([sorted[0]] + names)[1..] == names;
      } else {
        assert ([m] + sorted)[1..] == sorted;
        NotBelow(k.less, m, sorted);
        hide StrictWeak, SortedUpTo;
        var names := Names(k, sorted);
        assert names != [] ==> names[0] in names;
      }
    } else {
      assert [m][1..] == [];
    }
  }

  /** The sort is stable: leaving out the array indices before or after it makes no difference. */
  lemma {:induction false} NamesOfSort(k: Keys, members: seq<Member>)
    requires StrictWeak(k.less)
    ensures Names(k, Sort(k.less, members)) == Sort(k.less, Names(k, members))
  {
    if members != [] {
      NamesOfSort(k, members[1..]);
      SortSorts(k.less, members[1..]);
      NamesOfInsert(k, members[0], Sort(k.less, members[1..]));
      var names := Names(k, members[1..]);
      assert ([members[0]] + names)[1..] == names;
    }
  }

  lemma {:induction false} DefinedDistinct(members: seq<Member>)
    requires DistinctKeys(members)
    ensures DistinctKeys(Defined(members))
  {
    if members != [] {
      DefinedDistinct(members[1..]);
      forall x | x in members[1..] ensures x.key != members[0].key {
      }
    }
  }

  /** The order in which the runtime lists the keys of a canonical object. */
  predicate Before(k: Keys, a: string, b: string) {
    if k.isIndex(a) && k.isIndex(b) then k.indexLess(a, b)
    else if k.isIndex(a) || k.isIndex(b) then k.isIndex(a)
    else k.less(a, b)
  }

  ghost predicate Ordered(k: Keys, members: seq<Member>) {
    forall i, j :: 0 <= i < j < |members| ==> Before(k, members[i].key, members[j].key)
  }

  lemma {:induction false} IndicesDistinct(k: Keys, members: seq<Member>)
    requires DistinctKeys(members)
    ensures DistinctKeys(Indices(k, members))
  {
    if members != [] {
      IndicesDistinct(k, members[1..]);
      forall x | x in members[1..] ensures x.key != members[0].key {
      }
    }
  }

  lemma {:induction false} NamesKeep(k: Keys, members: seq<Member>)
    ensures SortedUpTo(k.less, members) ==> SortedUpTo(k.less, Names(k, members))
    ensures DistinctKeys(members) ==> DistinctKeys(Names(k, members))
  {
    if members != [] {
      NamesKeep(k, members[1..]);
      var names := Names(k, members[1..]);
      forall j | 0 <= j < |names|
        ensures SortedUpTo(k.less, members) ==> !k.less(names[j].key, members[0].key)
        ensures DistinctKeys(members) ==> members[0].key != names[j].key
      {
        assert names[j] in names;
        var i :| 0 <= i < |members[1..]| && members[1..][i] == names[j];
        assert members[i + 1] == names[j];
      }
    }
  }

  /** The indices of an object, listed by the runtime, are in their order. */
  lemma IndicesSorted(k: Keys, members: seq<Member>)
    requires Orders(k) && DistinctKeys(members)
    ensures SortedBy(k.indexLess, Sort(k.indexLess, Indices(k, members)))
    ensures Ordered(k, Sort(k.indexLess, Indices(k, members)))
    ensures DistinctKeys(Sort(k.indexLess, Indices(k, members)))
  {
    IndicesDistinct(k, members);
    SortSorts(k.indexLess, Indices(k, members));
    SortDistinct(k.indexLess, Indices(k, members));
    var sorted := Sort(k.indexLess, Indices(k, members));
    assert forall m :: m in sorted ==> k.isIndex(m.key);
    hide Sort, Indices, StrictWeak;
    Strictly(k.indexLess, sorted);
    forall i, j | 0 <= i < j < |sorted| ensures Before(k, sorted[i].key, sorted[j].key) {
      assert sorted[i] in sorted && sorted[j] in sorted;
    }
  }

  lemma FromEntriesOrders(k: Keys, members: seq<Member>)
    requires Orders(k) && SortedUpTo(k.less, members) && DistinctKeys(members)
    requires forall m, n :: m in members && n in members ==> !Tied(k, m.key, n.key)
    ensures Ordered(k, FromEntries(k, members))
  {
    IndicesSorted(k, members);
    NamesKeep(k, members);
    var first, second := Sort(k.indexLess, Indices(k, members)), Names(k, members);
    assert forall m :: m in first ==> k.isIndex(m.key);
    assert forall m :: m in second ==> m in members && !k.isIndex(m.key);
    hide Sort, Indices, Names, StrictWeak;
    Strictly(k.less, second);
    var all: seq<Member> := first + second;
    forall i, j | 0 <= i < j < |all| ensures Before(k, all[i].key, all[j].key) {
      assert i < |first| ==> first[i] in first;
      assert j < |first| ==> first[j] in first;
      assert i >= |first| ==> second[i - |first|] in second;
      assert j >= |first| ==> second[j - |first|] in second;
    }
  }

  /** Listing an object's entries keeps its keys distinct, whatever they are. */
  lemma FromEntriesDistinct(k: Keys, members: seq<Member>)
    requires Orders(k) && DistinctKeys(members)
    ensures DistinctKeys(FromEntries(k, members))
  {
    IndicesSorted(k, members);
    NamesKeep(k, members);
    var first, second := Sort(k.indexLess, Indices(k, members)), Names(k, members);
    assert forall m :: m in first ==> k.isIndex(m.key);
    assert forall m :: m in second ==> !k.isIndex(m.key);
    hide Sort, Indices, Names, StrictWeak;
    var all: seq<Member> := first + second;
    forall i, j | 0 <= i < j < |all| ensures all[i].key != all[j].key {
      assert i < |first| ==> first[i] in first;
      assert j >= |first| ==> second[j - |first|] in second;
    }
  }

  /** Two member lists in the same order with the same members are equal. */
  lemma {:induction false} OrderedUnique(k: Keys, x: seq<Member>, y: seq<Member>)
    requires Orders(k) && Ordered(k, x) && Ordered(k, y)
    requires forall m :: m in x <==> m in y
    ensures x == y
  {
    NoneInNone(x, y);
    if x != [] {
      assert x[0] in y && y != [] && y[0] in x;
      var i :| 0 <= i < |x| && x[i] == y[0];
      var j :| 0 <= j < |y| && y[j] == x[0];
      BeforeAsymmetric(k, x[0].key, y[0].key);
      assert x[0] == y[0];
      forall m ensures m in x[1..] <==> m in y[1..] {
        TailMember(k, x, m);
        TailMember(k, y, m);
      }
      OrderedUnique(k, x[1..], y[1..]);
    }
  }

  lemma NoneInNone(x: seq<Member>, y: seq<Member>)
    requires forall m :: m in x <==> m in y
    ensures x == [] ==> y == []
  {
    if y != [] { assert y[0] in y; }
  }

  lemma BeforeAsymmetric(k: Keys, a: string, b: string)
    requires Orders(k)
    ensures !(Before(k, a, b) && Before(k, b, a))
  {
  }

  lemma TailMember(k: Keys, x: seq<Member>, m: Member)
    requires Orders(k) && Ordered(k, x) && x != []
    ensures m in x[1..] <==> m in x && m != x[0]
  {
  }

  // ---------------------------------------------------------------- what the canonical form holds

  /** The members of `y` are those of `x` in the same order, each with its canonical value. */
  ghost predicate Images(k: Keys, x: seq<Member>, y: seq<Member>) {
    |x| == |y| && forall i :: 0 <= i < |x| ==> y[i] == Member(x[i].key, Canonical(k, x[i].value))
  }

  lemma CanonicalParts(k: Keys, members: seq<Member>) returns (mapped: seq<Member>)
    ensures Images(k, Sort(k.less, Defined(members)), mapped)
    ensures Canonical(k, Object(members)) == Object(FromEntries(k, mapped))
  {
    var sorted := Sort(k.less, Defined(members));
    mapped := seq(|sorted|, i requires 0 <= i < |sorted| => Member(sorted[i].key, Canonical(k, sorted[i].value)));
  }

  /** The members of a canonical object: the defined members of the original, each with its canonical value. */
  lemma CanonicalMembers(k: Keys, members: seq<Member>)
    ensures var c := Canonical(k, Object(members));
            && c.Object?
            && (forall m :: m in members && m.value != Undefined ==> Member(m.key, Canonical(k, m.value)) in c.members)
            && (forall n :: n in c.members ==>
                  exists m :: m in members && m.value != Undefined && n == Member(m.key, Canonical(k, m.value)))
  {
    var sorted := Sort(k.less, Defined(members));
    var mapped := CanonicalParts(k, members);
    hide Sort, Defined, FromEntries, Canonical;
    forall m | m in members && m.value != Undefined ensures Member(m.key, Canonical(k, m.value)) in mapped {
      var i :| 0 <= i < |sorted| && sorted[i] == m;
      assert mapped[i] == Member(m.key, Canonical(k, m.value));
    }
    forall n | n in mapped
      ensures exists m :: m in members && m.value != Undefined && n == Member(m.key, Canonical(k, m.value))
    {
      var i :| 0 <= i < |mapped| && mapped[i] == n;
      assert sorted[i] in sorted;
    }
  }

  /** The entries before they are listed: sorted up to ties, with the keys of the defined members. */
  lemma MappedShape(k: Keys, members: seq<Member>, mapped: seq<Member>)
    requires Orders(k) && DistinctKeys(members) && Images(k, Sort(k.less, Defined(members)), mapped)
    ensures SortedUpTo(k.less, mapped) && DistinctKeys(mapped)
    ensures forall n :: n in mapped ==> exists m :: m in members && m.value != Undefined && m.key == n.key
  {
    var sorted := Sort(k.less, Defined(members));
    DefinedDistinct(members);
    SortSorts(k.less, Defined(members));
    SortDistinct(k.less, Defined(members));
    hide Sort, Defined, StrictWeak, Canonical;
    forall n | n in mapped ensures exists m :: m in members && m.value != Undefined && m.key == n.key {
      var i :| 0 <= i < |mapped| && mapped[i] == n;
      assert sorted[i] in sorted;
    }
  }

  lemma CanonicalDistinct(k: Keys, members: seq<Member>)
    requires Orders(k) && DistinctKeys(members)
    ensures Canonical(k, Object(members)).Object? && DistinctKeys(Canonical(k, Object(members)).members)
  {
    var mapped := CanonicalParts(k, members);
    MappedShape(k, members, mapped);
    hide *;
    FromEntriesDistinct(k, mapped);
  }

  /** Without tied keys a canonical object lists its members in the one order of their keys. */
  lemma CanonicalOrdered(k: Keys, members: seq<Member>)
    requires Orders(k) && DistinctKeys(members) && NoTiedKeys(k, members)
    ensures Canonical(k, Object(members)).Object? && Ordered(k, Canonical(k, Object(members)).members)
  {
    var mapped := CanonicalParts(k, members);
    MappedShape(k, members, mapped);
    hide Canonical, FromEntries, Sort, Defined, Tied, Ordered, Orders, SortedUpTo, DistinctKeys;
    forall m, n | m in mapped && n in mapped ensures !Tied(k, m.key, n.key) {
      var m' :| m' in members && m'.value != Undefined && m'.key == m.key;
      var n' :| n' in members && n'.value != Undefined && n'.key == n.key;
    }
    FromEntriesOrders(k, mapped);
  }

  lemma CanonicalKind(k: Keys, v: Json)
    ensures Canonical(k, v).Array? <==> v.Array?
    ensures Canonical(k, v).Object? <==> v.Object?
    ensures Canonical(k, v) == Undefined <==> v == Undefined
    ensures !v.Array? && !v.Object? ==> Canonical(k, v) == v
  {
  }

  // ---------------------------------------------------------------- same form, same request

  /** Requests without tied keys that are equal up to member order and undefined members have the same canonical
    * form. */
  lemma {:induction false} SameGivesSameForm(k: Keys, a: Json, b: Json)
    requires Orders(k) && WellFormed(a) && WellFormed(b) && NoTies(k, a) && NoTies(k, b) && Same(a, b)
    ensures Canonical(k, a) == Canonical(k, b)
    decreases a
  {
    if a.Array? && b.Array? {
      forall i | 0 <= i < |a.items| ensures Canonical(k, a.items[i]) == Canonical(k, b.items[i]) {
        SameGivesSameForm(k, a.items[i], b.items[i]);
      }
    } else if a.Object? && b.Object? {
      forall m, n | m in a.members && n in b.members && Same(m.value, n.value)
        ensures Canonical(k, m.value) == Canonical(k, n.value)
      {
        SameGivesSameForm(k, m.value, n.value);
      }
      SameParts(a.members, b.members);
      hide Same, Canonical, SameIn, KeyIn, Covered;
      BothCovered(k, a.members, b.members);
      ObjectsSameForm(k, a.members, b.members);
    }
  }

  /** Some defined member of `b` has the key and the form of `m`. */
  ghost predicate FormIn(k: Keys, m: Member, b: seq<Member>) {
    exists n :: n in b && n.value != Undefined && n.key == m.key && Canonical(k, m.value) == Canonical(k, n.value)
  }

  ghost predicate SameIn(m: Member, b: seq<Member>) {
    exists n :: n in b && n.value != Undefined && n.key == m.key && Same(m.value, n.value)
  }

  ghost predicate KeyIn(n: Member, a: seq<Member>) {
    exists m :: m in a && m.value != Undefined && m.key == n.key
  }

  /** Every defined member of `a` has a counterpart in `b` with the same form. */
  ghost predicate Covered(k: Keys, a: seq<Member>, b: seq<Member>) {
    forall m :: m in a && m.value != Undefined ==> FormIn(k, m, b)
  }

  lemma CoveredIncluded(k: Keys, a: seq<Member>, b: seq<Member>)
    requires Covered(k, a, b)
    ensures Canonical(k, Object(a)).Object? && Canonical(k, Object(b)).Object?
    ensures forall x :: x in Canonical(k, Object(a)).members ==> x in Canonical(k, Object(b)).members
  {
    CanonicalMembers(k, a);
    CanonicalMembers(k, b);
    hide Canonical;
    forall x | x in Canonical(k, Object(a)).members ensures x in Canonical(k, Object(b)).members {
      var m :| m in a && m.value != Undefined && x == Member(m.key, Canonical(k, m.value));
      assert FormIn(k, m, b);
      var n :| n in b && n.value != Undefined && n.key == m.key && Canonical(k, m.value) == Canonical(k, n.value);
    }
  }

  /** Objects whose matching members have the same form have the same form. */
  lemma ObjectsSameForm(k: Keys, a: seq<Member>, b: seq<Member>)
    requires Orders(k) && DistinctKeys(a) && DistinctKeys(b) && NoTiedKeys(k, a) && NoTiedKeys(k, b)
    requires Covered(k, a, b) && Covered(k, b, a)
    ensures Canonical(k, Object(a)) == Canonical(k, Object(b))
  {
    hide Canonical, Orders, DistinctKeys, Covered;
    CoveredIncluded(k, a, b);
    CoveredIncluded(k, b, a);
    CanonicalOrdered(k, a);
    CanonicalOrdered(k, b);
    OrderedUnique(k, Canonical(k, Object(a)).members, Canonical(k, Object(b)).members);
  }

  lemma BothCovered(k: Keys, a: seq<Member>, b: seq<Member>)
    requires DistinctKeys(b)
    requires forall m :: m in a && m.value != Undefined ==> SameIn(m, b)
    requires forall n :: n in b && n.value != Undefined ==> KeyIn(n, a)
    requires forall m, n :: m in a && n in b && Same(m.value, n.value) ==> Canonical(k, m.value) == Canonical(k, n.value)
    ensures Covered(k, a, b) && Covered(k, b, a)
  {
    hide Same, Canonical, SameIn, KeyIn, FormIn, DistinctKeys;
    forall m | m in a && m.value != Undefined ensures FormIn(k, m, b) { FormOfSame(k, m, b, a); }
    forall n | n in b && n.value != Undefined ensures FormIn(k, n, a) { FormOfKey(k, n, a, b); }
  }

  lemma FormOfSame(k: Keys, m: Member, b: seq<Member>, a: seq<Member>)
    requires SameIn(m, b) && m in a
    requires forall m, n :: m in a && n in b && Same(m.value, n.value) ==> Canonical(k, m.value) == Canonical(k, n.value)
    ensures FormIn(k, m, b)
  {
    hide Same, Canonical;
    var n :| n in b && n.value != Undefined && n.key == m.key && Same(m.value, n.value);
  }

  lemma FormOfKey(k: Keys, n: Member, a: seq<Member>, b: seq<Member>)
    requires DistinctKeys(b) && n in b && KeyIn(n, a)
    requires forall m :: m in a && m.value != Undefined ==> SameIn(m, b)
    requires forall m, n :: m in a && n in b && Same(m.value, n.value) ==> Canonical(k, m.value) == Canonical(k, n.value)
    ensures FormIn(k, n, a)
  {
  }

  lemma SameParts(a: seq<Member>, b: seq<Member>)
    requires Same(Object(a), Object(b))
    ensures forall m :: m in a && m.value != Undefined ==> SameIn(m, b)
    ensures forall n :: n in b && n.value != Undefined ==> KeyIn(n, a)
  {
  }

  /** Requests with the same canonical form are equal up to member order and undefined members. */
  lemma {:induction false} SameFormGivesSame(k: Keys, a: Json, b: Json)
    requires Canonical(k, a) == Canonical(k, b)
    ensures Same(a, b)
    decreases a
  {
    CanonicalKind(k, a);
    CanonicalKind(k, b);
    if a.Array? {
      forall i | 0 <= i < |a.items| ensures Same(a.items[i], b.items[i]) {
        assert Canonical(k, a).items[i] == Canonical(k, b).items[i];
        SameFormGivesSame(k, a.items[i], b.items[i]);
      }
    } else if a.Object? {
      CanonicalMembers(k, a.members);
      CanonicalMembers(k, b.members);
      hide Canonical;
      forall m | m in a.members && m.value != Undefined
        ensures exists n :: n in b.members && n.value != Undefined && n.key == m.key && Same(m.value, n.value)
      {
        assert Member(m.key, Canonical(k, m.value)) in Canonical(k, b).members;
        var n :| n in b.members && n.value != Undefined && Member(m.key, Canonical(k, m.value)) == Member(n.key, Canonical(k, n.value));
        SameFormGivesSame(k, m.value, n.value);
      }
      forall n | n in b.members && n.value != Undefined
        ensures exists m :: m in a.members && m.value != Undefined && m.key == n.key
      {
        assert Member(n.key, Canonical(k, n.value)) in Canonical(k, a).members;
      }
    }
  }

  lemma SameReflexive(v: Json)
    ensures Same(v, v)
    decreases v
  {
    match v
    case Array(items) =>
      forall i | 0 <= i < |items| ensures Same(items[i], items[i]) { SameReflexive(items[i]); }
    case Object(members) =>
      forall m | m in members ensures Same(m.value, m.value) { SameReflexive(m.value); }
    case _ =>
  }

  /** A request equal to one without tied keys has none. */
  lemma {:induction false} SameHasNoTies(k: Keys, a: Json, b: Json)
    requires WellFormed(b) && NoTies(k, a) && Same(a, b)
    ensures NoTies(k, b)
    decreases a
  {
    if b.Array? {
      forall i | 0 <= i < |b.items| ensures NoTies(k, b.items[i]) { SameHasNoTies(k, a.items[i], b.items[i]); }
    } else if b.Object? {
      forall m, n | m in a.members && n in b.members && Same(m.value, n.value) ensures NoTies(k, n.value) {
        SameHasNoTies(k, m.value, n.value);
      }
      ObjectHasNoTies(k, a.members, b.members);
    }
  }

  lemma ObjectHasNoTies(k: Keys, a: seq<Member>, b: seq<Member>)
    requires WellFormed(Object(b)) && NoTies(k, Object(a)) && Same(Object(a), Object(b))
    requires forall m, n :: m in a && n in b && Same(m.value, n.value) ==> NoTies(k, n.value)
    ensures NoTies(k, Object(b))
  {
    SameParts(a, b);
    NoTiesParts(k, a);
    WellFormedParts(b);
    hide Same, SameIn, KeyIn, NoTiedKeys, NoTies, WellFormed, DistinctKeys;
    forall n | n in b && n.value != Undefined ensures NoTies(k, n.value) {
      var m := Counterpart(a, b, n);
    }
    KeysNotTied(k, a, b);
    NoTiesFromParts(k, b);
  }

  lemma NoTiesParts(k: Keys, members: seq<Member>)
    requires NoTies(k, Object(members))
    ensures NoTiedKeys(k, members) && forall m :: m in members ==> NoTies(k, m.value)
  {
  }

  lemma NoTiesFromParts(k: Keys, members: seq<Member>)
    requires NoTiedKeys(k, members) && forall m :: m in members && m.value != Undefined ==> NoTies(k, m.value)
    ensures NoTies(k, Object(members))
  {
    hide NoTiedKeys;
  }

  lemma WellFormedParts(members: seq<Member>)
    requires WellFormed(Object(members))
    ensures DistinctKeys(members) && forall m :: m in members ==> WellFormed(m.value)
  {
  }

  lemma KeysNotTied(k: Keys, a: seq<Member>, b: seq<Member>)
    requires NoTiedKeys(k, a) && forall n :: n in b && n.value != Undefined ==> KeyIn(n, a)
    ensures NoTiedKeys(k, b)
  {
    hide Tied;
    forall m, n | m in b && n in b && m.value != Undefined && n.value != Undefined ensures !Tied(k, m.key, n.key) {
      assert KeyIn(m, a) && KeyIn(n, a);
    }
  }

  /** The member of `a` that `n` is the counterpart of. */
  lemma Counterpart(a: seq<Member>, b: seq<Member>, n: Member) returns (m: Member)
    requires DistinctKeys(b) && n in b && KeyIn(n, a)
    requires forall x :: x in a && x.value != Undefined ==> SameIn(x, b)
    ensures m in a && m.value != Undefined && m.key == n.key && Same(m.value, n.value)
  {
    hide Same, SameIn, DistinctKeys;
    m :| m in a && m.value != Undefined && m.key == n.key;
    SameAtKey(m, b, n);
  }

  lemma SameAtKey(m: Member, b: seq<Member>, n: Member)
    requires DistinctKeys(b) && n in b && m.key == n.key && SameIn(m, b)
    ensures Same(m.value, n.value)
  {
    hide Same;
    var x :| x in b && x.value != Undefined && x.key == m.key && Same(m.value, x.value);
    var i :| 0 <= i < |b| && b[i] == x;
    var j :| 0 <= j < |b| && b[j] == n;
    assert i == j;
  }

  /** A request without tied keys has the same canonical form as another exactly when the two are equal up to member
    * order and undefined members, at every depth. */
  lemma CanonicalDecidesSame(k: Keys, a: Json, b: Json)
    requires Orders(k) && WellFormed(a) && WellFormed(b) && NoTies(k, a)
    ensures Canonical(k, a) == Canonical(k, b) <==> Same(a, b)
  {
    if Same(a, b) {
      SameHasNoTies(k, a, b);
      SameGivesSameForm(k, a, b);
    }
    if Canonical(k, a) == Canonical(k, b) { SameFormGivesSame(k, a, b); }
  }

  // ---------------------------------------------------------------- tied keys

  ghost predicate Precedes(list: seq<Member>, a: Member, b: Member) {
    exists i, j :: 0 <= i < j < |list| && list[i] == a && list[j] == b
  }

  lemma PrecedesInTail(first: Member, rest: seq<Member>, a: Member, b: Member)
    requires Precedes(rest, a, b) || (first == a && b in rest)
    ensures Precedes([first] + rest, a, b)
  {
    var all := [first] + rest;
    if Precedes(rest, a, b) {
      var i, j :| 0 <= i < j < |rest| && rest[i] == a && rest[j] == b;
      assert all[i + 1] == a && all[j + 1] == b;
    } else {
      var j :| 0 <= j < |rest| && rest[j] == b;
      assert all[0] == a && all[j + 1] == b;
    }
  }

  lemma PrecedesSplit(list: seq<Member>, a: Member, b: Member)
    requires list != [] && Precedes(list, a, b)
    ensures Precedes(list[1..], a, b) || (list[0] == a && b in list[1..])
  {
    var i, j :| 0 <= i < j < |list| && list[i] == a && list[j] == b;
    assert list[1..][j - 1] == b;
    if i > 0 { assert list[1..][i - 1] == a; }
  }

  lemma {:induction false} InsertPrecedes(less: (string, string) -> bool, m: Member, sorted: seq<Member>, a: Member, b: Member)
    requires Precedes(sorted, a, b) || (m == a && b in sorted && !less(b.key, a.key))
    ensures Precedes(Insert(less, m, sorted), a, b)
  {
    if less(sorted[0].key, m.key) {
      var rest := Insert(less, m, sorted[1..]);
      if Precedes(sorted, a, b) {
        PrecedesSplit(sorted, a, b);
        if Precedes(sorted[1..], a, b) { InsertPrecedes(less, m, sorted[1..], a, b); }
      } else {
        assert b in sorted[1..];
        InsertPrecedes(less, m, sorted[1..], a, b);
      }
      PrecedesInTail(sorted[0], rest, a, b);
    } else {
      PrecedesInTail(m, sorted, a, b);
    }
  }

  /** The sort keeps the order of two members unless their keys say otherwise. */
  lemma {:induction false} SortPrecedes(less: (string, string) -> bool, members: seq<Member>, a: Member, b: Member)
    requires Precedes(members, a, b) && !less(b.key, a.key)
    ensures Precedes(Sort(less, members), a, b)
  {
    PrecedesSplit(members, a, b);
    var rest := Sort(less, members[1..]);
    if Precedes(members[1..], a, b) { SortPrecedes(less, members[1..], a, b); }
    InsertPrecedes(less, members[0], rest, a, b);
  }

  lemma {:induction false} DefinedPrecedes(members: seq<Member>, a: Member, b: Member)
    requires Precedes(members, a, b) && a.value != Undefined && b.value != Undefined
    ensures Precedes(Defined(members), a, b)
  {
    PrecedesSplit(members, a, b);
    var rest := Defined(members[1..]);
    if Precedes(members[1..], a, b) { DefinedPrecedes(members[1..], a, b); }
    if members[0].value != Undefined { PrecedesInTail(members[0], rest, a, b); }
  }

  lemma {:induction false} NamesPrecedes(k: Keys, members: seq<Member>, a: Member, b: Member)
    requires Precedes(members, a, b) && !k.isIndex(a.key) && !k.isIndex(b.key)
    ensures Precedes(Names(k, members), a, b)
  {
    PrecedesSplit(members, a, b);
    var rest := Names(k, members[1..]);
    if Precedes(members[1..], a, b) { NamesPrecedes(k, members[1..], a, b); }
    if !k.isIndex(members[0].key) { PrecedesInTail(members[0], rest, a, b); }
  }

  lemma ImagesPrecede(k: Keys, x: seq<Member>, y: seq<Member>, a: Member, b: Member)
    requires Images(k, x, y) && Precedes(x, a, b)
    ensures Precedes(y, Member(a.key, Canonical(k, a.value)), Member(b.key, Canonical(k, b.value)))
  {
    hide Canonical;
    var i, j :| 0 <= i < j < |x| && x[i] == a && x[j] == b;
    assert y[i].key == a.key && y[j].key == b.key;
  }

  lemma ListedPrecedes(k: Keys, members: seq<Member>, a: Member, b: Member)
    requires Precedes(members, a, b) && !k.isIndex(a.key) && !k.isIndex(b.key)
    ensures Precedes(FromEntries(k, members), a, b)
  {
    NamesPrecedes(k, members, a, b);
    var first, names := Sort(k.indexLess, Indices(k, members)), Names(k, members);
    hide Sort, Names, Indices;
    var i, j :| 0 <= i < j < |names| && names[i] == a && names[j] == b;
    assert (first + names)[|first| + i] == a && (first + names)[|first| + j] == b;
  }

  /** Two names that are not the other way round for the comparison keep their order in the canonical form. */
  lemma CanonicalPrecedes(k: Keys, members: seq<Member>, a: Member, b: Member)
    requires Precedes(members, a, b) && a.value != Undefined && b.value != Undefined
    requires !k.isIndex(a.key) && !k.isIndex(b.key) && !k.less(b.key, a.key)
    ensures var c := Canonical(k, Object(members));
            c.Object? && Precedes(c.members, Member(a.key, Canonical(k, a.value)), Member(b.key, Canonical(k, b.value)))
  {
    var mapped := CanonicalParts(k, members);
    hide *;
    DefinedPrecedes(members, a, b);
    SortPrecedes(k.less, Defined(members), a, b);
    ImagesPrecede(k, Sort(k.less, Defined(members)), mapped, a, b);
    ListedPrecedes(k, mapped, Member(a.key, Canonical(k, a.value)), Member(b.key, Canonical(k, b.value)));
  }

  lemma OneOrderOnly(list: seq<Member>, a: Member, b: Member)
    requires DistinctKeys(list) && Precedes(list, a, b)
    ensures !Precedes(list, b, a)
  {
  }

  /** Two tied keys keep the order they came in: any object that has them, written with the two members exchanged,
    * is the same request and has another canonical form. */
  lemma TiedKeysKeepInputOrder(k: Keys, members: seq<Member>, i: nat, j: nat)
    requires Orders(k) && WellFormed(Object(members)) && i < j < |members|
    requires members[i].value != Undefined && members[j].value != Undefined && Tied(k, members[i].key, members[j].key)
    ensures var x, y := Object(members), Object(members[i := members[j]][j := members[i]]);
            Same(x, y) && WellFormed(y) && Canonical(k, x) != Canonical(k, y)
  {
    var a, b := members[i], members[j];
    var swapped := members[i := b][j := a];
    SwapMembers(members, i, j);
    hide Same, Canonical, Orders, WellFormed;
    assert Precedes(members, a, b);
    assert swapped[i] == b && swapped[j] == a;
    assert Precedes(swapped, b, a);
    hide Precedes;
    PermutedSame(members, swapped);
    CanonicalPrecedes(k, members, a, b);
    CanonicalPrecedes(k, swapped, b, a);
    WellFormedParts(members);
    CanonicalDistinct(k, members);
    OneOrderOnly(Canonical(k, Object(members)).members, Member(a.key, Canonical(k, a.value)), Member(b.key, Canonical(k, b.value)));
  }

  /** Objects with the same members in another order are the same. */
  lemma PermutedSame(x: seq<Member>, y: seq<Member>)
    requires WellFormed(Object(x)) && DistinctKeys(y) && forall m :: m in x <==> m in y
    ensures Same(Object(x), Object(y)) && WellFormed(Object(y))
  {
    forall m | m in x ensures Same(m.value, m.value) { SameReflexive(m.value); }
  }

  lemma SwapMembers(members: seq<Member>, i: nat, j: nat)
    requires i < j < |members| && WellFormed(Object(members))
    ensures forall m :: m in members <==> m in members[i := members[j]][j := members[i]]
    ensures DistinctKeys(members[i := members[j]][j := members[i]])
  {
    var swapped := members[i := members[j]][j := members[i]];
    forall p | 0 <= p < |members| ensures members[p] in swapped {
      var q := if p == i then j else if p == j then i else p;
      assert swapped[q] == members[p];
    }
    forall p | 0 <= p < |members| ensures swapped[p] in members {
      var q := if p == i then j else if p == j then i else p;
      assert members[q] == swapped[p];
    }
  }

  /** A request with tied keys somewhere is equal to another one that has another canonical form. */
  lemma {:induction false} TiesGiveTwoForms(k: Keys, v: Json) returns (w: Json)
    requires Orders(k) && WellFormed(v) && !NoTies(k, v)
    ensures WellFormed(w) && Same(v, w) && Canonical(k, v) != Canonical(k, w)
    decreases v
  {
    if v.Array? {
      var i :| 0 <= i < |v.items| && !NoTies(k, v.items[i]);
      hide Same, Canonical, Orders;
      var other := TiesGiveTwoForms(k, v.items[i]);
      ItemReplaced(k, v.items, i, other);
      w := Array(v.items[i := other]);
    } else if NoTiedKeys(k, v.members) {
      var m :| m in v.members && !NoTies(k, m.value);
      hide Same, Canonical, Orders;
      var other := TiesGiveTwoForms(k, m.value);
      w := ValueReplaced(k, v.members, m, other);
    } else {
      hide *;
      w := KeysExchanged(k, v.members);
    }
  }

  lemma ItemReplaced(k: Keys, items: seq<Json>, i: nat, other: Json)
    requires WellFormed(Array(items)) && WellFormed(other) && i < |items|
    requires Same(items[i], other) && Canonical(k, items[i]) != Canonical(k, other)
    ensures var v, w := Array(items), Array(items[i := other]);
            WellFormed(w) && Same(v, w) && Canonical(k, v) != Canonical(k, w)
  {
    var v, w := Array(items), Array(items[i := other]);
    forall j | 0 <= j < |items| ensures Same(items[j], w.items[j]) { SameReflexive(items[j]); }
    assert Canonical(k, v).items[i] != Canonical(k, w).items[i];
  }

  lemma KeysExchanged(k: Keys, members: seq<Member>) returns (w: Json)
    requires Orders(k) && WellFormed(Object(members)) && !NoTiedKeys(k, members)
    ensures WellFormed(w) && Same(Object(members), w) && Canonical(k, Object(members)) != Canonical(k, w)
  {
    var m, n :| m in members && n in members && m.value != Undefined && n.value != Undefined && Tied(k, m.key, n.key);
    var i :| 0 <= i < |members| && members[i] == m;
    var j :| 0 <= j < |members| && members[j] == n;
    var lo, hi := if i < j then i else j, if i < j then j else i;
    w := Object(members[lo := members[hi]][hi := members[lo]]);
    TiedKeysKeepInputOrder(k, members, lo, hi);
  }

  lemma ValueReplaced(k: Keys, members: seq<Member>, m: Member, other: Json) returns (w: Json)
    requires Orders(k) && WellFormed(Object(members)) && m in members && m.value != Undefined
    requires WellFormed(other) && Same(m.value, other) && Canonical(k, m.value) != Canonical(k, other)
    ensures WellFormed(w) && Same(Object(members), w) && Canonical(k, Object(members)) != Canonical(k, w)
  {
    var i :| 0 <= i < |members| && members[i] == m;
    var n := Member(m.key, other);
    w := Object(members[i := n]);
    ReplacedSame(members, i, other);
    assert members[i := n][i] == n;
    hide Canonical, Same, WellFormed, Orders;
    WellFormedParts(members[i := n]);
    CanonicalMembers(k, members);
    CanonicalMembers(k, members[i := n]);
    CanonicalDistinct(k, members[i := n]);
    hide DistinctKeys;
    OneValue(Canonical(k, w).members, Member(m.key, Canonical(k, m.value)), Member(m.key, Canonical(k, other)));
  }

  lemma OneValue(list: seq<Member>, a: Member, b: Member)
    requires DistinctKeys(list) && b in list && a.key == b.key && a != b
    ensures a !in list
  {
  }

  lemma ReplacedSame(members: seq<Member>, i: nat, other: Json)
    requires WellFormed(Object(members)) && i < |members| && members[i].value != Undefined
    requires WellFormed(other) && Same(members[i].value, other)
    ensures var w := Object(members[i := Member(members[i].key, other)]);
            WellFormed(w) && Same(Object(members), w) && other != Undefined
  {
    var n := Member(members[i].key, other);
    var replaced := members[i := n];
    ReplacedMembers(members, i, n);
    assert other != Undefined;
    assert WellFormed(Object(replaced));
    hide WellFormed, SameIn, KeyIn;
    forall x | x in members && x.value != Undefined ensures SameIn(x, replaced) {
      if x == members[i] { IsSameIn(x, n, replaced); } else { SameReflexive(x.value); IsSameIn(x, x, replaced); }
    }
    forall x | x in replaced && x.value != Undefined ensures KeyIn(x, members) {
      IsKeyIn(x, if x == n then members[i] else x, members);
    }
    SameFromParts(members, replaced);
  }

  lemma IsSameIn(m: Member, n: Member, b: seq<Member>)
    requires n in b && n.value != Undefined && n.key == m.key && Same(m.value, n.value)
    ensures SameIn(m, b)
  {
  }

  lemma IsKeyIn(n: Member, m: Member, a: seq<Member>)
    requires m in a && m.value != Undefined && m.key == n.key
    ensures KeyIn(n, a)
  {
  }

  lemma SameFromParts(a: seq<Member>, b: seq<Member>)
    requires forall m :: m in a && m.value != Undefined ==> SameIn(m, b)
    requires forall n :: n in b && n.value != Undefined ==> KeyIn(n, a)
    ensures Same(Object(a), Object(b))
  {
  }

  lemma ReplacedMembers(members: seq<Member>, i: nat, n: Member)
    requires i < |members|
    ensures forall x :: x in members && x != members[i] ==> x in members[i := n]
    ensures n in members[i := n] && forall x :: x in members[i := n] ==> x == n || x in members
  {
    assert members[i := n][i] == n;
    forall x | x in members && x != members[i] ensures x in members[i := n] {
      var j :| 0 <= j < |members| && members[j] == x;
      assert members[i := n][j] == x;
    }
  }

  /** What a caller can check of a request: its canonical form is that of every request equal to it exactly when no
    * object in it has two tied keys. */
  lemma OneFormIffNoTies(k: Keys, v: Json)
    requires Orders(k) && WellFormed(v)
    ensures NoTies(k, v) <==> forall w :: WellFormed(w) && Same(v, w) ==> Canonical(k, v) == Canonical(k, w)
  {
    hide *;
    if NoTies(k, v) {
      forall w | WellFormed(w) && Same(v, w) ensures Canonical(k, v) == Canonical(k, w) { CanonicalDecidesSame(k, v, w); }
    } else {
      var w := TiesGiveTwoForms(k, v);
    }
  }

  // ---------------------------------------------------------------- canonicalising twice

  lemma {:induction false} NamesAlone(k: Keys, first: seq<Member>, names: seq<Member>)
    requires forall m :: m in first ==> k.isIndex(m.key)
    requires forall m :: m in names ==> !k.isIndex(m.key)
    ensures Names(k, first + names) == names
  {
    if first != [] {
      assert (first + names)[1..] == first[1..] + names && first[0] in first;
      NamesAlone(k, first[1..], names);
    } else {
      assert first + names == names;
      AllNames(k, names);
    }
  }

  lemma {:induction false} AllNames(k: Keys, names: seq<Member>)
    requires forall m :: m in names ==> !k.isIndex(m.key)
    ensures Names(k, names) == names
  {
    if names != [] { AllNames(k, names[1..]); }
  }

  lemma {:induction false} AllDefined(members: seq<Member>)
    requires forall m :: m in members ==> m.value != Undefined
    ensures Defined(members) == members
  {
    if members != [] { AllDefined(members[1..]); }
  }

  /** Sorting and listing a listed object again lists it the same, tied keys included. */
  lemma ListedStays(k: Keys, mapped: seq<Member>)
    requires Orders(k) && SortedUpTo(k.less, mapped) && DistinctKeys(mapped)
    ensures FromEntries(k, Sort(k.less, FromEntries(k, mapped))) == FromEntries(k, mapped)
  {
    var first, names := Sort(k.indexLess, Indices(k, mapped)), Names(k, mapped);
    var listed := FromEntries(k, mapped);
    assert listed == first + names;
    IndicesSorted(k, mapped);
    NamesKeep(k, mapped);
    FromEntriesDistinct(k, mapped);
    NamesAlone(k, first, names);
    NamesOfSort(k, listed);
    SortedStays(k.less, names);
    var again := Sort(k.less, listed);
    SortDistinct(k.less, listed);
    IndicesSorted(k, again);
    assert Names(k, again) == names;
    assert forall m :: m in Sort(k.indexLess, Indices(k, again)) <==> m in first;
    hide Sort, Indices, Names, SortedUpTo, SortedBy, DistinctKeys;
    OrderedUnique(k, Sort(k.indexLess, Indices(k, again)), first);
  }

  /** Canonicalising a canonical form changes nothing, with or without tied keys. */
  lemma {:induction false} CanonicalTwice(k: Keys, v: Json)
    requires Orders(k) && WellFormed(v)
    ensures Canonical(k, Canonical(k, v)) == Canonical(k, v)
    decreases v
  {
    if v.Array? {
      forall i | 0 <= i < |v.items|
        ensures Canonical(k, Canonical(k, v).items[i]) == Canonical(k, v).items[i]
      {
        CanonicalTwice(k, v.items[i]);
      }
    } else if v.Object? {
      forall m | m in v.members ensures Canonical(k, Canonical(k, m.value)) == Canonical(k, m.value) {
        CanonicalTwice(k, m.value);
      }
      ObjectTwice(k, v.members);
    }
  }

  lemma ObjectTwice(k: Keys, members: seq<Member>)
    requires Orders(k) && DistinctKeys(members)
    requires forall m :: m in members ==> Canonical(k, Canonical(k, m.value)) == Canonical(k, m.value)
    ensures Canonical(k, Canonical(k, Object(members))) == Canonical(k, Object(members))
  {
    var mapped := CanonicalParts(k, members);
    MappedShape(k, members, mapped);
    CanonicalMembers(k, members);
    var listed := FromEntries(k, mapped);
    forall n | n in listed ensures n.value != Undefined && Canonical(k, n.value) == n.value {
      var m :| m in members && m.value != Undefined && n == Member(m.key, Canonical(k, m.value));
      CanonicalKind(k, m.value);
    }
    AllDefined(listed);
    var again := CanonicalParts(k, listed);
    var sorted := Sort(k.less, listed);
    hide Canonical, FromEntries, Sort, Defined;
    forall i | 0 <= i < |again| ensures again[i] == sorted[i] {
      assert sorted[i] in sorted;
    }
    assert again == sorted;
    ListedStays(k, mapped);
  }
}
