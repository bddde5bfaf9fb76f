/** The listing pipeline shared by the GET handlers: filter by parent, then
    case-insensitive name search, then the `starred` filter, then
    `Array.prototype.sort` on one field, then `slice` for a page. */
module Query {
  import opened Drive
  import opened Sequences

  // ---------------------------------------------------------------------
  // Filtering (`Array.prototype.filter`)

  /** `s.filter(p)`: exactly the records satisfying p, in their order. */
  function Filter(s: seq<Item>, p: Item -> bool): (r: seq<Item>)
    ensures forall x :: x in r <==> x in s && p(x)
    ensures forall x :: multiset(r)[x] == if p(x) then multiset(s)[x] else 0
    ensures Subseq(r, s)
    ensures |r| <= |s|
  {
    if s == [] then []
    else
      var rest := Filter(s[1..], p);
      assert s == [s[0]] + s[1..];
      if p(s[0]) then [s[0]] + rest else rest
  }

  /** `folderId` filter: records whose parent link is exactly `folderId`. */
  function ByFolder(s: seq<Item>, folderId: int): seq<Item> {
    Filter(s, (x: Item) => x.folderId == Some(folderId))
  }

  /** `q` / `name` filter: lowercased name contains the lowercased term. */
  function Matching(s: seq<Item>, term: string): seq<Item> {
    Filter(s, (x: Item) => Includes(Lower(x.name), Lower(term)))
  }

  /** `starred` filter: strict equality, so a record without the field
      passes neither `true` nor `false`. */
  function WithStarred(s: seq<Item>, b: bool): seq<Item> {
    Filter(s, (x: Item) => x.starred == Some(b))
  }

  // ---------------------------------------------------------------------
  // Sorting by one field (`a[_sort] > b[_sort]`)

  datatype SortField = Id | Name | FolderId | CreatedAt

  /** The value `a[_sort]` compares; Absent stands for `undefined`. */
  datatype Key = Absent | Num(n: int) | Text(t: string)

  function KeyOf(x: Item, f: SortField): Key {
    match f
    case Id => Num(x.id)
    case Name => Text(x.name)
    case FolderId => if x.folderId.Some? then Num(x.folderId.value) else Absent
    case CreatedAt => if x.blob.Some? then Num(x.blob.value.createdAt) else Absent
  }

  /** String order, character by character, a prefix first. JavaScript
      compares UTF-16 code units, while a Dafny `char` is a whole Unicode
      scalar value; the two orders agree below U+10000 and can differ when
      a character above U+FFFF meets one in U+E000..U+FFFF. */
  predicate TextLe(a: string, b: string) {
    if a == [] then true
    else if b == [] then false
    else if a[0] != b[0] then a[0] < b[0]
    else TextLe(a[1..], b[1..])
  }

  lemma {:induction false} TextLeTotal(a: string, b: string)
    ensures TextLe(a, b) || TextLe(b, a)
  {
    if a != [] && b != [] && a[0] == b[0] {
      TextLeTotal(a[1..], b[1..]);
    }
  }

  lemma {:induction false} TextLeTrans(a: string, b: string, c: string)
    requires TextLe(a, b) && TextLe(b, c)
    ensures TextLe(a, c)
  {
    if a != [] && b != [] && c != [] && a[0] == b[0] && b[0] == c[0] {
      TextLeTrans(a[1..], b[1..], c[1..]);
    }
  }

  /** A total preorder on keys. Within one field all defined keys have the
      same kind; `undefined` compares false with everything in JavaScript,
      for which the source's order is implementation-defined: here it sorts
      first. */
  predicate KeyLe(a: Key, b: Key) {
    match (a, b)
    case (Absent, _) => true
    case (_, Absent) => false
    case (Num(m), Num(n)) => m <= n
    case (Text(s), Text(t)) => TextLe(s, t)
    case (Num(_), Text(_)) => true
    case (Text(_), Num(_)) => false
  }

  /** May x stand before y in the listing? `_order=desc` reverses the order. */
  predicate Precedes(x: Item, y: Item, f: SortField, desc: bool) {
    if desc then KeyLe(KeyOf(y, f), KeyOf(x, f)) else KeyLe(KeyOf(x, f), KeyOf(y, f))
  }

  lemma PrecedesTotal(x: Item, y: Item, f: SortField, desc: bool)
    ensures Precedes(x, y, f, desc) || Precedes(y, x, f, desc)
  {
    var a, b := KeyOf(x, f), KeyOf(y, f);
    if a.Text? && b.Text? {
      TextLeTotal(a.t, b.t);
    }
  }

  lemma PrecedesTrans(x: Item, y: Item, z: Item, f: SortField, desc: bool)
    requires Precedes(x, y, f, desc) && Precedes(y, z, f, desc)
    ensures Precedes(x, z, f, desc)
  {
    var a, b, c := KeyOf(x, f), KeyOf(y, f), KeyOf(z, f);
    if a.Text? && b.Text? && c.Text? {
      if desc { TextLeTrans(c.t, b.t, a.t); } else { TextLeTrans(a.t, b.t, c.t); }
    }
  }

  ghost predicate Sorted(s: seq<Item>, f: SortField, desc: bool) {
    forall i, j :: 0 <= i < j < |s| ==> Precedes(s[i], s[j], f, desc)
  }

  /** Places x before the first element it may precede. */
  function Insert(x: Item, t: seq<Item>, f: SortField, desc: bool): seq<Item> {
    if t == [] then [x]
    else if Precedes(x, t[0], f, desc) then [x] + t
    else [t[0]] + Insert(x, t[1..], f, desc)
  }

  lemma {:induction false} InsertPermutes(x: Item, t: seq<Item>, f: SortField, desc: bool)
    ensures multiset(Insert(x, t, f, desc)) == multiset(t) + multiset{x}
  {
    if t == [] {
      assert Insert(x, t, f, desc) == [x];
    } else if Precedes(x, t[0], f, desc) {
      assert Insert(x, t, f, desc) == [x] + t;
    } else {
      var u := Insert(x, t[1..], f, desc);
      InsertPermutes(x, t[1..], f, desc);
      assert Insert(x, t, f, desc) == [t[0]] + u;
      assert multiset([t[0]] + u) == multiset{t[0]} + multiset(u);
      assert t == [t[0]] + t[1..];
      assert multiset(t) == multiset{t[0]} + multiset(t[1..]);
    }
  }

  /** An element that may precede the head of a sorted list may precede all of it. */
  lemma PrecedesAll(x: Item, t: seq<Item>, f: SortField, desc: bool)
    requires Sorted(t, f, desc) && t != [] && Precedes(x, t[0], f, desc)
    ensures forall j :: 0 <= j < |t| ==> Precedes(x, t[j], f, desc)
  {
    forall j | 0 < j < |t| ensures Precedes(x, t[j], f, desc) {
      PrecedesTrans(x, t[0], t[j], f, desc);
    }
  }

  lemma ConsSorted(x: Item, t: seq<Item>, f: SortField, desc: bool)
    requires Sorted(t, f, desc)
    requires forall j :: 0 <= j < |t| ==> Precedes(x, t[j], f, desc)
    ensures Sorted([x] + t, f, desc)
  {
    var r := [x] + t;
    forall i, j | 0 <= i < j < |r| ensures Precedes(r[i], r[j], f, desc) {
      if i > 0 { assert r[i] == t[i - 1]; }
      assert r[j] == t[j - 1];
    }
  }

  lemma {:induction false} InsertSorted(x: Item, t: seq<Item>, f: SortField, desc: bool)
    requires Sorted(t, f, desc)
    ensures Sorted(Insert(x, t, f, desc), f, desc)
  {
    if t == [] {
    } else if Precedes(x, t[0], f, desc) {
      PrecedesAll(x, t, f, desc);
      ConsSorted(x, t, f, desc);
    } else {
      PrecedesTotal(x, t[0], f, desc);
      var u := Insert(x, t[1..], f, desc);
      InsertSorted(x, t[1..], f, desc);
      InsertPermutes(x, t[1..], f, desc);
      forall j | 0 <= j < |u| ensures Precedes(t[0], u[j], f, desc) {
        var y := u[j];
        assert y in multiset(u);
        if y != x {
          assert y in multiset(t[1..]);
          var k :| 1 <= k < |t| && t[k] == y;
        }
      }
      ConsSorted(t[0], u, f, desc);
    }
  }

  /** The result contract of `sort` with the source's comparator: a
      permutation of its input, ordered by the field (descending when
      `desc`). Equal keys keep their input order here; the source's
      comparator leaves that order to the engine. */
  function SortBy(s: seq<Item>, f: SortField, desc: bool): (r: seq<Item>)
    ensures multiset(r) == multiset(s)
    ensures Sorted(r, f, desc)
    ensures |r| == |s|
  {
    if s == [] then []
    else
      var t := SortBy(s[1..], f, desc);
      InsertSorted(s[0], t, f, desc);
      InsertPermutes(s[0], t, f, desc);
      assert s == [s[0]] + s[1..];
      Insert(s[0], t, f, desc)
  }

  /** Lists that are permutations of each other hold the same records. */
  lemma SameMembers(a: seq<Item>, b: seq<Item>)
    requires multiset(a) == multiset(b)
    ensures forall x :: x in a <==> x in b
  {
    forall x ensures x in a <==> x in b {
      assert x in a <==> x in multiset(a);
      assert x in b <==> x in multiset(b);
    }
  }

  // ---------------------------------------------------------------------
  // Pagination (`slice((page - 1) * limit, page * limit)`)

  type Pos = n: int | n >= 1 witness 1

  function Min(a: int, b: int): int { if a <= b then a else b }

  /** `(page - 1) * limit`, where page `page` starts; the page ends at
      `page * limit`. */
  function PageStart(page: Pos, limit: Pos): (n: nat)
    ensures n + limit == page * limit
  {
    (page - 1) * limit
  }

  /** Page `page` of `limit` records: the consecutive run starting at
      `(page - 1) * limit`, at most `limit` long, empty past the end. */
  function Paginate(s: seq<Item>, page: Pos, limit: Pos): (r: seq<Item>)
    ensures |r| <= limit
    ensures PageStart(page, limit) >= |s| <==> r == []
    ensures PageStart(page, limit) < |s| ==> |r| == Min(limit, |s| - PageStart(page, limit))
    ensures forall k :: 0 <= k < |r| ==> PageStart(page, limit) + k < |s| && r[k] == s[PageStart(page, limit) + k]
  {
    var start := PageStart(page, limit);
    if start >= |s| then [] else s[start..Min(page * limit, |s|)]
  }

  /** Every record of a page is a record of the list. */
  lemma PaginateMembers(s: seq<Item>, page: Pos, limit: Pos)
    ensures forall x :: x in Paginate(s, page, limit) ==> x in s
  {
    var r := Paginate(s, page, limit);
    forall x | x in r ensures x in s {
      var k :| 0 <= k < |r| && r[k] == x;
      assert s[PageStart(page, limit) + k] == x;
    }
  }

  lemma SliceSorted(s: seq<Item>, lo: int, hi: int, f: SortField, desc: bool)
    requires 0 <= lo <= hi <= |s| && Sorted(s, f, desc)
    ensures Sorted(s[lo..hi], f, desc)
  {
    var t := s[lo..hi];
    forall i, j | 0 <= i < j < |t| ensures Precedes(t[i], t[j], f, desc) {
      assert t[i] == s[lo + i] && t[j] == s[lo + j];
    }
  }

  /** A page holds only records of the list it was cut from. */
  lemma PaginateIncluded(s: seq<Item>, page: Pos, limit: Pos)
    ensures multiset(Paginate(s, page, limit)) <= multiset(s)
  {
    var start := PageStart(page, limit);
    if start < |s| {
      var end := Min(page * limit, |s|);
      assert Paginate(s, page, limit) == s[start..end];
      assert s == s[..start] + s[start..end] + s[end..];
    }
  }

  /** A page of a sorted list is sorted and holds only records of the list. */
  lemma PaginateSorted(s: seq<Item>, page: Pos, limit: Pos, f: SortField, desc: bool)
    requires Sorted(s, f, desc)
    ensures Sorted(Paginate(s, page, limit), f, desc)
    ensures multiset(Paginate(s, page, limit)) <= multiset(s)
  {
    var start := PageStart(page, limit);
    if start < |s| {
      var end := Min(page * limit, |s|);
      assert Paginate(s, page, limit) == s[start..end];
      SliceSorted(s, start, end, f, desc);
    }
    PaginateIncluded(s, page, limit);
  }

  // ---------------------------------------------------------------------
  // The whole pipeline

  /** The query string of a listing, already parsed: `q` is "" when absent
      or empty (falsy), `sort` is None when `_sort` is falsy, `desc` is
      `_order === 'desc'`, `starred` is the raw string when present. */
  datatype ListQuery = ListQuery(
    folderId: Option<int>, q: string, starred: Option<string>,
    sort: Option<SortField>, desc: bool, page: Option<Pos>, limit: Option<Pos>)

  /** `starred.toLowerCase() === 'true'`. */
  function StarredWanted(raw: string): bool {
    Lower(raw) == "true"
  }

  /** The per-record test the three filters apply together. */
  predicate Selects(q: ListQuery, x: Item) {
    && (q.folderId.Some? ==> x.folderId == Some(q.folderId.value))
    && (q.q != "" ==> Includes(Lower(x.name), Lower(q.q)))
    && (q.starred.Some? ==> x.starred == Some(StarredWanted(q.starred.value)))
  }

  /** No filter ran, so the working list is still the store's own array. */
  predicate Unfiltered(q: ListQuery) {
    q.folderId.None? && q.q == "" && q.starred.None?
  }

  function Filtered(s: seq<Item>, q: ListQuery): seq<Item> {
    var a := if q.folderId.Some? then ByFolder(s, q.folderId.value) else s;
    var b := if q.q != "" then Matching(a, q.q) else a;
    if q.starred.Some? then WithStarred(b, StarredWanted(q.starred.value)) else b
  }

  function Ordered(s: seq<Item>, q: ListQuery): seq<Item> {
    var t := Filtered(s, q);
    if q.sort.Some? then SortBy(t, q.sort.value, q.desc) else t
  }

  /** What the listing handler sends back. */
  function RunQuery(s: seq<Item>, q: ListQuery): seq<Item> {
    var t := Ordered(s, q);
    if q.page.Some? && q.limit.Some? then Paginate(t, q.page.value, q.limit.value) else t
  }

  /** Each record is kept exactly as often as it is stored when all three
      filters select it, and not at all otherwise. */
  lemma FilteredCounts(s: seq<Item>, q: ListQuery)
    ensures forall x :: multiset(Filtered(s, q))[x] == if Selects(q, x) then multiset(s)[x] else 0
  {
    var a := if q.folderId.Some? then ByFolder(s, q.folderId.value) else s;
    var b := if q.q != "" then Matching(a, q.q) else a;
    var c := Filtered(s, q);
    assert forall x: Item :: multiset(a)[x] == if (q.folderId.Some? ==> x.folderId == Some(q.folderId.value)) then multiset(s)[x] else 0;
    assert forall x: Item :: multiset(b)[x] == if (q.q != "" ==> Includes(Lower(x.name), Lower(q.q))) then multiset(a)[x] else 0;
    assert forall x: Item :: multiset(c)[x] == if (q.starred.Some? ==> x.starred == Some(StarredWanted(q.starred.value))) then multiset(b)[x] else 0;
  }

  /** The filters keep the store's order. */
  lemma FilteredInOrder(s: seq<Item>, q: ListQuery)
    ensures Subseq(Filtered(s, q), s)
  {
    var a := if q.folderId.Some? then ByFolder(s, q.folderId.value) else s;
    var b := if q.q != "" then Matching(a, q.q) else a;
    SubseqRefl(s);
    SubseqRefl(a);
    SubseqRefl(b);
    SubseqTrans(b, a, s);
    SubseqTrans(Filtered(s, q), b, s);
  }

  /** The filtered list holds exactly the selected records, each as often
      as it is stored, in store order. */
  lemma FilteredSpec(s: seq<Item>, q: ListQuery)
    ensures forall x :: x in Filtered(s, q) <==> x in s && Selects(q, x)
    ensures forall x :: multiset(Filtered(s, q))[x] == if Selects(q, x) then multiset(s)[x] else 0
    ensures Subseq(Filtered(s, q), s)
  {
    var c := Filtered(s, q);
    FilteredCounts(s, q);
    FilteredInOrder(s, q);
    forall x ensures x in c <==> x in s && Selects(q, x) {
      assert x in c <==> x in multiset(c);
      assert x in s <==> x in multiset(s);
    }
  }

  /** The listing is the ordered list, or a page of it: never more, and
      still sorted. */
  lemma RunQueryWithin(s: seq<Item>, q: ListQuery)
    ensures multiset(RunQuery(s, q)) <= multiset(Filtered(s, q))
    ensures q.sort.Some? ==> Sorted(RunQuery(s, q), q.sort.value, q.desc)
    ensures q.page.None? || q.limit.None? ==> multiset(RunQuery(s, q)) == multiset(Filtered(s, q))
  {
    var t := Ordered(s, q);
    if q.page.Some? && q.limit.Some? {
      PaginateIncluded(t, q.page.value, q.limit.value);
      if q.sort.Some? {
        PaginateSorted(t, q.page.value, q.limit.value, q.sort.value, q.desc);
      }
    }
  }

  /** What a listing returns: records of the store that pass every filter,
      ordered by the sort field when one is given; without pagination,
      every such record, each as often as it is stored, and without
      `_sort` as well, in stored order. */
  lemma RunQuerySpec(s: seq<Item>, q: ListQuery)
    ensures forall x :: x in RunQuery(s, q) ==> x in s && Selects(q, x)
    ensures q.sort.Some? ==> Sorted(RunQuery(s, q), q.sort.value, q.desc)
    ensures q.page.None? || q.limit.None? ==> multiset(RunQuery(s, q)) == multiset(Filtered(s, q))
    ensures q.page.None? || q.limit.None? ==>
      forall x :: multiset(RunQuery(s, q))[x] == if Selects(q, x) then multiset(s)[x] else 0
    ensures q.page.Some? && q.limit.Some? ==> |RunQuery(s, q)| <= q.limit.value
    ensures q.sort.None? && (q.page.None? || q.limit.None?) ==> Subseq(RunQuery(s, q), s)
  {
    FilteredSpec(s, q);
    RunQueryWithin(s, q);
    var r := RunQuery(s, q);
    forall x | x in r ensures x in s && Selects(q, x) {
      assert x in multiset(r);
      assert x in multiset(Filtered(s, q));
    }
  }

  /** A record with no `starred` field is in no listing that filters on
      `starred`, whichever value was asked for. */
  lemma UnstarredFieldNeverListed(s: seq<Item>, q: ListQuery, x: Item)
    requires q.starred.Some? && x.starred.None?
    ensures x !in RunQuery(s, q)
  {
    RunQuerySpec(s, q);
  }
}
