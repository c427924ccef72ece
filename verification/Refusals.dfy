/** Grouping refusals by category and code (apps/web/src/lib/refusals.ts:62-97). A JavaScript `Map`
    from codes is a list of entries in insertion order; `localeCompare` is an arbitrary collation
    key, `collate`, whose order it follows. Labels and hints are left out of the groups. */
module Refusals {
  import opened Sequences

  datatype Row = Row(id: string, category: string, code: string, at: Option<string>, source: Option<string>)

  const CATEGORY_ORDER: seq<string> := ["not_granted", "policy", "state", "human"]

  /** An unknown category counts as `policy`. */
  function Normal(category: string): string {
    if category in CATEGORY_ORDER then category else "policy"
  }

  datatype CodeRows = CodeRows(code: string, rows: seq<Row>)

  datatype CategoryGroup = CategoryGroup(category: string, count: nat, codes: seq<CodeRows>)

  type Collate = string -> real

  function AtText(r: Row): string {
    if r.at.Some? then r.at.value else ""
  }

  /** The comparator of rows: newest first. */
  function NewestFirst(collate: Collate): (Row, Row) -> bool {
    (a: Row, b: Row) => collate(AtText(a)) >= collate(AtText(b))
  }

  /** The comparator of code groups: largest first. */
  function LargestFirst(): (CodeRows, CodeRows) -> bool {
    (a: CodeRows, b: CodeRows) => |a.rows| >= |b.rows|
  }

  function InCategory(category: string): Row -> bool {
    (r: Row) => Normal(r.category) == category
  }

  function HasCode(code: string): Row -> bool {
    (r: Row) => r.code == code
  }

  function Codes(rows: seq<Row>): seq<string> {
    if rows == [] then [] else Codes(rows[..|rows| - 1]) + [rows[|rows| - 1].code]
  }

  // ------------------------------------------------------------- the specification

  /** One group of rows for each of `codes`. */
  function GroupAll(codes: seq<string>, rows: seq<Row>): (groups: seq<CodeRows>)
    ensures |groups| == |codes|
  {
    if codes == [] then [] else [CodeRows(codes[0], Filter(rows, HasCode(codes[0])))] + GroupAll(codes[1..], rows)
  }

  /** The rows of each code, codes in order of first appearance. */
  function CodeGroups(rows: seq<Row>): seq<CodeRows> {
    GroupAll(Dedup(Codes(rows)), rows)
  }

  function SortEach(collate: Collate, groups: seq<CodeRows>): (r: seq<CodeRows>)
    ensures |r| == |groups|
  {
    if groups == [] then []
    else SortEach(collate, groups[..|groups| - 1])
         + [CodeRows(groups[|groups| - 1].code, StableSort(groups[|groups| - 1].rows, NewestFirst(collate)))]
  }

  function GroupOf(collate: Collate, rows: seq<Row>, category: string): CategoryGroup {
    var own := Filter(rows, InCategory(category));
    CategoryGroup(category, |own|, StableSort(SortEach(collate, CodeGroups(own)), LargestFirst()))
  }

  /** The groups of the first `n` categories, without the empty ones. */
  function Grouped(collate: Collate, rows: seq<Row>, n: nat): seq<CategoryGroup>
    requires n <= |CATEGORY_ORDER|
  {
    if n == 0 then []
    else
      var category := CATEGORY_ORDER[n - 1];
      Grouped(collate, rows, n - 1)
      + (if Filter(rows, InCategory(category)) == [] then [] else [GroupOf(collate, rows, category)])
  }

  // ------------------------------------------------------------- the code

  /** `codes.get(code).push(row)`, after `codes.set(code, [])` for a new code. */
  function AddRow(groups: seq<CodeRows>, r: Row): seq<CodeRows> {
    if groups == [] then [CodeRows(r.code, [r])]
    else if groups[0].code == r.code then [CodeRows(r.code, groups[0].rows + [r])] + groups[1..]
    else [groups[0]] + AddRow(groups[1..], r)
  }

  function CodesOf(byCategory: map<string, seq<CodeRows>>, category: string): seq<CodeRows> {
    if category in byCategory then byCategory[category] else []
  }

  method GroupRefusals(collate: Collate, refusals: seq<Row>) returns (groups: seq<CategoryGroup>)
    ensures groups == Grouped(collate, refusals, |CATEGORY_ORDER|)
  {
    hide Normal, CodeGroups, AddRow, GroupOf;
    var byCategory: map<string, seq<CodeRows>> := map[];
    NoGroups();
    for i := 0 to |refusals|
      invariant forall c :: CodesOf(byCategory, c) == CodeGroups(Filter(refusals[..i], InCategory(c)))
      invariant forall c :: c in byCategory <==> Filter(refusals[..i], InCategory(c)) != []
    {
      var refusal := refusals[i];
      var category := Normal(refusal.category);
      GroupStep(refusals, i);
      byCategory := byCategory[category := AddRow(CodesOf(byCategory, category), refusal)];
    }
    assert refusals[..|refusals|] == refusals;
    groups := [];
    for n := 0 to |CATEGORY_ORDER|
      invariant groups == Grouped(collate, refusals, n)
    {
      var category := CATEGORY_ORDER[n];
      if category !in byCategory {
        continue;
      }
      var codeGroups, count := SortCodes(collate, byCategory[category]);
      CountCodeGroups(Filter(refusals, InCategory(category)));
      GroupOfIs(collate, refusals, category);
      groups := groups + [CategoryGroup(category, count, codeGroups)];
    }
  }

  function Size(groups: seq<CodeRows>): nat {
    if groups == [] then 0 else Size(groups[..|groups| - 1]) + |groups[|groups| - 1].rows|
  }

  method SortCodes(collate: Collate, codes: seq<CodeRows>) returns (codeGroups: seq<CodeRows>, count: nat)
    ensures codeGroups == StableSort(SortEach(collate, codes), LargestFirst())
    ensures count == Size(codes)
  {
    codeGroups, count := [], 0;
    for k := 0 to |codes|
      invariant codeGroups == SortEach(collate, codes[..k]) && count == Size(codes[..k])
    {
      var sorted := StableSort(codes[k].rows, NewestFirst(collate));
      assert codes[..k + 1][..k] == codes[..k];
      count := count + |sorted|;
      codeGroups := codeGroups + [CodeRows(codes[k].code, sorted)];
    }
    assert codes[..|codes|] == codes;
    codeGroups := StableSort(codeGroups, LargestFirst());
  }

  lemma {:induction false} GroupOfIs(collate: Collate, rows: seq<Row>, category: string)
    ensures GroupOf(collate, rows, category)
         == CategoryGroup(category, |Filter(rows, InCategory(category))|,
                          StableSort(SortEach(collate, CodeGroups(Filter(rows, InCategory(category)))), LargestFirst()))
  {
  }

  lemma {:induction false} NoGroups()
    ensures CodeGroups([]) == [] && forall c :: Filter([], InCategory(c)) == []
  {
  }

  lemma {:induction false} CodesSnoc(rows: seq<Row>, r: Row)
    ensures Codes(rows + [r]) == Codes(rows) + [r.code]
  {
    assert (rows + [r])[..|rows|] == rows;
  }

  lemma {:induction false} CodesMembers(rows: seq<Row>, code: string)
    ensures code in Codes(rows) <==> exists r :: r in rows && r.code == code
  {
    if rows != [] {
      CodesMembers(rows[..|rows| - 1], code);
      assert rows == rows[..|rows| - 1] + [rows[|rows| - 1]];
    }
  }

  lemma {:induction false} GroupAllSnoc(codes: seq<string>, rows: seq<Row>, r: Row)
    requires Distinct(codes)
    ensures GroupAll(codes, rows + [r])
         == if r.code in codes then AddRow(GroupAll(codes, rows), r) else GroupAll(codes, rows)
  {
    hide Filter;
    if codes != [] {
      var first, rest := codes[0], codes[1..];
      GroupAllSnoc(rest, rows, r);
      FilterSnoc(rows, r, HasCode(first));
      assert r.code in codes <==> r.code == first || r.code in rest by {
        assert codes == [first] + rest;
      }
      var groups := GroupAll(codes, rows);
      assert groups == [CodeRows(first, Filter(rows, HasCode(first)))] + GroupAll(rest, rows);
      assert groups[1..] == GroupAll(rest, rows);
      if first == r.code {
        assert r.code !in rest;
      } else {
        assert Filter(rows + [r], HasCode(first)) == Filter(rows, HasCode(first));
      }
    }
  }

  lemma {:induction false} GroupAllNew(codes: seq<string>, rows: seq<Row>, r: Row)
    requires r.code !in codes
    ensures GroupAll(codes + [r.code], rows)
         == GroupAll(codes, rows) + [CodeRows(r.code, Filter(rows, HasCode(r.code)))]
    ensures AddRow(GroupAll(codes, rows), r) == GroupAll(codes, rows) + [CodeRows(r.code, [r])]
  {
    if codes == [] {
      assert [r.code][1..] == [];
    } else {
      assert (codes + [r.code])[1..] == codes[1..] + [r.code];
      assert GroupAll(codes, rows)[1..] == GroupAll(codes[1..], rows);
      GroupAllNew(codes[1..], rows, r);
    }
  }

  /** Grouping one row more is adding it to the group of its code. */
  lemma {:induction false} CodeGroupsSnoc(rows: seq<Row>, r: Row)
    ensures CodeGroups(rows + [r]) == AddRow(CodeGroups(rows), r)
  {
    var codes := Dedup(Codes(rows));
    CodesSnoc(rows, r);
    DedupSnoc(Codes(rows), r.code);
    GroupAllSnoc(codes, rows, r);
    if r.code !in codes {
      GroupAllNew(codes, rows + [r], r);
      GroupAllNew(codes, rows, r);
      FilterSnoc(rows, r, HasCode(r.code));
      CodesMembers(rows, r.code);
      FilterEmpty(rows, HasCode(r.code));
      assert Filter(rows + [r], HasCode(r.code)) == [r];
    }
  }

  lemma {:induction false} GroupStep(rows: seq<Row>, i: nat)
    requires i < |rows|
    ensures forall c :: c != Normal(rows[i].category) ==>
            Filter(rows[..i + 1], InCategory(c)) == Filter(rows[..i], InCategory(c))
    ensures var c := Normal(rows[i].category);
            && CodeGroups(Filter(rows[..i + 1], InCategory(c)))
              == AddRow(CodeGroups(Filter(rows[..i], InCategory(c))), rows[i])
            && Filter(rows[..i + 1], InCategory(c)) != []
  {
    hide CodeGroups, AddRow, Normal;
    assert rows[..i + 1] == rows[..i] + [rows[i]];
    forall c ensures Filter(rows[..i + 1], InCategory(c))
        == Filter(rows[..i], InCategory(c)) + (if InCategory(c)(rows[i]) then [rows[i]] else []) {
      FilterSnoc(rows[..i], rows[i], InCategory(c));
    }
    CodeGroupsSnoc(Filter(rows[..i], InCategory(Normal(rows[i].category))), rows[i]);
  }

  // ------------------------------------------------------------- conservation

  function Flat(groups: seq<CodeRows>): multiset<Row> {
    if groups == [] then multiset{} else Flat(groups[..|groups| - 1]) + multiset(groups[|groups| - 1].rows)
  }

  function FlatAll(groups: seq<CategoryGroup>): multiset<Row> {
    if groups == [] then multiset{} else FlatAll(groups[..|groups| - 1]) + Flat(groups[|groups| - 1].codes)
  }

  lemma {:induction false} FlatSnoc(groups: seq<CodeRows>, g: CodeRows)
    ensures Flat(groups + [g]) == Flat(groups) + multiset(g.rows)
    ensures Size(groups + [g]) == Size(groups) + |g.rows|
  {
    assert (groups + [g])[..|groups|] == groups;
  }

  lemma {:induction false} FlatCons(g: CodeRows, groups: seq<CodeRows>)
    ensures Flat([g] + groups) == multiset(g.rows) + Flat(groups)
    ensures Size([g] + groups) == |g.rows| + Size(groups)
  {
    NothingFlat();
    hide Flat, Size;
    if groups == [] {
      assert [g] + groups == [] + [g];
      FlatSnoc([], g);
    } else {
      var front, last := groups[..|groups| - 1], groups[|groups| - 1];
      assert groups == front + [last];
      assert [g] + groups == ([g] + front) + [last];
      FlatCons(g, front);
      FlatSnoc([g] + front, last);
      FlatSnoc(front, last);
    }
  }

  lemma {:induction false} FlatAddRow(groups: seq<CodeRows>, r: Row)
    ensures Flat(AddRow(groups, r)) == Flat(groups) + multiset{r}
    ensures Size(AddRow(groups, r)) == Size(groups) + 1
  {
    hide Flat, Size;
    if groups == [] {
      FlatCons(CodeRows(r.code, [r]), []);
      NothingFlat();
      assert AddRow(groups, r) == [CodeRows(r.code, [r])] + [];
    } else {
      assert groups == [groups[0]] + groups[1..];
      FlatCons(groups[0], groups[1..]);
      if groups[0].code == r.code {
        FlatCons(CodeRows(r.code, groups[0].rows + [r]), groups[1..]);
      } else {
        FlatAddRow(groups[1..], r);
        FlatCons(groups[0], AddRow(groups[1..], r));
      }
    }
  }

  lemma {:induction false} NothingFlat()
    ensures Flat([]) == multiset{} && Size([]) == 0
  {
  }

  lemma {:induction false} FlatCodeGroups(rows: seq<Row>)
    ensures Flat(CodeGroups(rows)) == multiset(rows) && Size(CodeGroups(rows)) == |rows|
  {
    hide CodeGroups, AddRow, Flat, Size;
    NoGroups();
    NothingFlat();
    if rows != [] {
      var front, last := rows[..|rows| - 1], rows[|rows| - 1];
      assert rows == front + [last];
      FlatCodeGroups(front);
      CodeGroupsSnoc(front, last);
      FlatAddRow(CodeGroups(front), last);
    }
  }

  lemma {:induction false} CountCodeGroups(rows: seq<Row>)
    ensures Size(CodeGroups(rows)) == |rows|
  {
    FlatCodeGroups(rows);
  }

  lemma {:induction false} FlatSortEach(collate: Collate, groups: seq<CodeRows>)
    ensures Flat(SortEach(collate, groups)) == Flat(groups)
  {
    if groups != [] {
      var front, last := groups[..|groups| - 1], groups[|groups| - 1];
      FlatSortEach(collate, front);
      FlatSnoc(SortEach(collate, front), CodeRows(last.code, StableSort(last.rows, NewestFirst(collate))));
    }
  }

  lemma {:induction false} FlatInsert(g: CodeRows, groups: seq<CodeRows>)
    ensures Flat(Insert(g, groups, LargestFirst())) == Flat([g] + groups)
  {
    hide Flat;
    if groups != [] && !LargestFirst()(g, groups[0]) {
      FlatInsert(g, groups[1..]);
      assert groups == [groups[0]] + groups[1..];
      FlatCons(groups[0], Insert(g, groups[1..], LargestFirst()));
      FlatCons(g, groups[1..]);
      FlatCons(g, groups);
      FlatCons(groups[0], groups[1..]);
    }
  }

  lemma {:induction false} FlatSort(groups: seq<CodeRows>)
    ensures Flat(StableSort(groups, LargestFirst())) == Flat(groups)
  {
    hide Flat;
    if groups != [] {
      FlatSort(groups[1..]);
      FlatInsert(groups[0], StableSort(groups[1..], LargestFirst()));
      assert groups == [groups[0]] + groups[1..];
      FlatCons(groups[0], groups[1..]);
      FlatCons(groups[0], StableSort(groups[1..], LargestFirst()));
    }
  }

  lemma {:induction false} FlatGroupOf(collate: Collate, rows: seq<Row>, category: string)
    ensures Flat(GroupOf(collate, rows, category).codes) == multiset(Filter(rows, InCategory(category)))
  {
    hide Flat, CodeGroups;
    var own := Filter(rows, InCategory(category));
    FlatCodeGroups(own);
    FlatSortEach(collate, CodeGroups(own));
    FlatSort(SortEach(collate, CodeGroups(own)));
  }

  function InFirst(n: nat): Row -> bool
    requires n <= |CATEGORY_ORDER|
  {
    (r: Row) => Normal(r.category) in CATEGORY_ORDER[..n]
  }

  lemma {:induction false} FilterDisjoint(rows: seq<Row>, p: Row -> bool, q: Row -> bool, both: Row -> bool)
    requires forall r: Row :: both(r) == (p(r) || q(r)) && !(p(r) && q(r))
    ensures multiset(Filter(rows, both)) == multiset(Filter(rows, p)) + multiset(Filter(rows, q))
  {
    if rows != [] {
      FilterDisjoint(rows[1..], p, q, both);
    }
  }

  lemma {:induction false} OrderDistinct(n: nat)
    requires n < |CATEGORY_ORDER|
    ensures CATEGORY_ORDER[n] !in CATEGORY_ORDER[..n]
    ensures forall c :: c in CATEGORY_ORDER[..n + 1] <==> c in CATEGORY_ORDER[..n] || c == CATEGORY_ORDER[n]
  {
    assert CATEGORY_ORDER[0] == "not_granted" && CATEGORY_ORDER[1] == "policy" && CATEGORY_ORDER[2] == "state"
           && CATEGORY_ORDER[3] == "human";
    assert CATEGORY_ORDER[..n + 1] == CATEGORY_ORDER[..n] + [CATEGORY_ORDER[n]];
  }

  lemma {:induction false} SplitFirst(rows: seq<Row>, n: nat)
    requires n < |CATEGORY_ORDER|
    ensures multiset(Filter(rows, InFirst(n + 1)))
         == multiset(Filter(rows, InFirst(n))) + multiset(Filter(rows, InCategory(CATEGORY_ORDER[n])))
  {
    hide Normal, CATEGORY_ORDER;
    OrderDistinct(n);
    FilterDisjoint(rows, InFirst(n), InCategory(CATEGORY_ORDER[n]), InFirst(n + 1));
  }

  lemma {:induction false} FlatAllSnoc(groups: seq<CategoryGroup>, g: CategoryGroup)
    ensures FlatAll(groups + [g]) == FlatAll(groups) + Flat(g.codes)
  {
    assert (groups + [g])[..|groups|] == groups;
  }

  lemma {:induction false} FlatStep(collate: Collate, rows: seq<Row>, n: nat)
    requires n < |CATEGORY_ORDER|
    ensures FlatAll(Grouped(collate, rows, n + 1))
         == FlatAll(Grouped(collate, rows, n)) + multiset(Filter(rows, InCategory(CATEGORY_ORDER[n])))
  {
    hide Flat, FlatAll, GroupOf, Normal, Filter, CATEGORY_ORDER;
    var category, before := CATEGORY_ORDER[n], Grouped(collate, rows, n);
    if Filter(rows, InCategory(category)) == [] {
      assert Grouped(collate, rows, n + 1) == before;
    } else {
      FlatGroupOf(collate, rows, category);
      FlatAllSnoc(before, GroupOf(collate, rows, category));
    }
  }

  lemma {:induction false} FlatGrouped(collate: Collate, rows: seq<Row>, n: nat)
    requires n <= |CATEGORY_ORDER|
    ensures FlatAll(Grouped(collate, rows, n)) == multiset(Filter(rows, InFirst(n)))
  {
    hide Flat, FlatAll, Grouped, InFirst, Normal, Filter, CATEGORY_ORDER;
    if n == 0 {
      FlatNone(collate, rows);
    } else {
      FlatGrouped(collate, rows, n - 1);
      FlatStep(collate, rows, n - 1);
      SplitFirst(rows, n - 1);
    }
  }

  lemma {:induction false} FlatNone(collate: Collate, rows: seq<Row>)
    ensures FlatAll(Grouped(collate, rows, 0)) == multiset(Filter(rows, InFirst(0)))
  {
    hide Normal, Filter;
    FilterEmpty(rows, InFirst(0));
    assert FlatAll([]) == multiset{};
  }

  lemma {:induction false} EveryCategoryListed(c: string)
    ensures Normal(c) in CATEGORY_ORDER
  {
    assert CATEGORY_ORDER[1] == "policy";
  }

  /** Main result: grouping loses, adds and repeats no row. */
  lemma {:induction false} GroupingConserves(collate: Collate, rows: seq<Row>)
    ensures FlatAll(Grouped(collate, rows, |CATEGORY_ORDER|)) == multiset(rows)
  {
    hide Normal;
    FlatGrouped(collate, rows, |CATEGORY_ORDER|);
    assert CATEGORY_ORDER[..|CATEGORY_ORDER|] == CATEGORY_ORDER;
    forall r | r in rows ensures InFirst(|CATEGORY_ORDER|)(r) {
      EveryCategoryListed(r.category);
    }
    FilterAll(rows, InFirst(|CATEGORY_ORDER|));
  }

  // ------------------------------------------------------------- what a group holds

  lemma {:induction false} GroupAllAt(codes: seq<string>, rows: seq<Row>, k: nat)
    requires k < |codes|
    ensures GroupAll(codes, rows)[k] == CodeRows(codes[k], Filter(rows, HasCode(codes[k])))
  {
    if k > 0 {
      GroupAllAt(codes[1..], rows, k - 1);
    }
  }

  lemma {:induction false} SortEachAt(collate: Collate, groups: seq<CodeRows>, k: nat)
    requires k < |groups|
    ensures SortEach(collate, groups)[k] == CodeRows(groups[k].code, StableSort(groups[k].rows, NewestFirst(collate)))
  {
    if k < |groups| - 1 {
      SortEachAt(collate, groups[..|groups| - 1], k);
    }
  }

  /** Before the final sort: the groups of a category, codes by first appearance. */
  function Unsorted(collate: Collate, rows: seq<Row>, category: string): seq<CodeRows> {
    SortEach(collate, CodeGroups(Filter(rows, InCategory(category))))
  }

  /** The group of a code holds exactly the rows of that category and code, newest first. */
  lemma {:induction false} GroupHolds(collate: Collate, rows: seq<Row>, category: string, k: nat)
    requires k < |Unsorted(collate, rows, category)|
    ensures var g := Unsorted(collate, rows, category)[k];
            && g.rows == StableSort(Filter(rows, Both(InCategory(category), HasCode(g.code))), NewestFirst(collate))
            && g.code == Dedup(Codes(Filter(rows, InCategory(category))))[k]
  {
    var own := Filter(rows, InCategory(category));
    SortEachAt(collate, CodeGroups(own), k);
    GroupAllAt(Dedup(Codes(own)), own, k);
    FilterTwice(rows, InCategory(category), HasCode(Dedup(Codes(own))[k]));
  }

  lemma {:induction false} PreorderRows(collate: Collate)
    ensures TotalPreorder(NewestFirst(collate))
  {
  }

  lemma {:induction false} PreorderGroups()
    ensures TotalPreorder(LargestFirst())
  {
  }

  lemma {:induction false} UnsortedDistinct(collate: Collate, rows: seq<Row>, category: string, j: nat, k: nat)
    requires j < k < |Unsorted(collate, rows, category)|
    ensures Unsorted(collate, rows, category)[j].code != Unsorted(collate, rows, category)[k].code
  {
    hide Unsorted, Dedup;
    GroupHolds(collate, rows, category, j);
    GroupHolds(collate, rows, category, k);
    assert |Unsorted(collate, rows, category)| == |Dedup(Codes(Filter(rows, InCategory(category))))| by {
      UnsortedLength(collate, rows, category);
    }
    assert Distinct(Dedup(Codes(Filter(rows, InCategory(category)))));
  }

  lemma {:induction false} UnsortedLength(collate: Collate, rows: seq<Row>, category: string)
    ensures |Unsorted(collate, rows, category)| == |Dedup(Codes(Filter(rows, InCategory(category))))|
  {
  }

  /** Main result on order: a category's code groups come in non-increasing size, equally large
      ones in order of first appearance. */
  lemma {:induction false} GroupOrder(collate: Collate, rows: seq<Row>, category: string, g: CodeRows)
    ensures var codes := GroupOf(collate, rows, category).codes;
            && Sorted(codes, LargestFirst())
            && Ties(codes, LargestFirst(), g) == Ties(Unsorted(collate, rows, category), LargestFirst(), g)
            && (g in codes <==> g in Unsorted(collate, rows, category))
  {
    hide Normal, Unsorted, Ties;
    var own := Unsorted(collate, rows, category);
    SortedUnsorted(collate, rows, category);
    PreorderGroups();
    SortSorts(own, LargestFirst());
    SortStable(own, LargestFirst(), g);
    SortMembers(own, LargestFirst());
  }

  /** A code group holds exactly the rows of its category and code, at least one of them, newest
      first and equal times in input order. */
  lemma {:induction false} RowOrder(collate: Collate, rows: seq<Row>, category: string, g: CodeRows)
    requires g in GroupOf(collate, rows, category).codes
    ensures Sorted(g.rows, NewestFirst(collate)) && g.rows != []
    ensures forall r ::
              Ties(g.rows, NewestFirst(collate), r)
              == Ties(Filter(rows, Both(InCategory(category), HasCode(g.code))), NewestFirst(collate), r)
    ensures forall r :: r in g.rows <==> r in rows && Normal(r.category) == category && r.code == g.code
  {
    hide Normal, Unsorted, Ties;
    var own := Unsorted(collate, rows, category);
    GroupOrder(collate, rows, category, g);
    var k :| 0 <= k < |own| && own[k] == g;
    GroupHolds(collate, rows, category, k);
    var mine := Filter(rows, Both(InCategory(category), HasCode(g.code)));
    PreorderRows(collate);
    SortSorts(mine, NewestFirst(collate));
    forall r ensures Ties(g.rows, NewestFirst(collate), r) == Ties(mine, NewestFirst(collate), r) {
      SortStable(mine, NewestFirst(collate), r);
    }
    SortMembers(mine, NewestFirst(collate));
    FilterMembers(rows, Both(InCategory(category), HasCode(g.code)));
    GroupNonEmpty(rows, category, g.code, k, collate);
  }

  ghost predicate DistinctCodes(groups: seq<CodeRows>) {
    forall j, k :: 0 <= j < k < |groups| ==> groups[j].code != groups[k].code
  }

  lemma {:induction false} InsertDistinct(g: CodeRows, groups: seq<CodeRows>)
    requires DistinctCodes(groups) && forall h :: h in groups ==> h.code != g.code
    ensures DistinctCodes(Insert(g, groups, LargestFirst()))
    ensures forall h :: h in Insert(g, groups, LargestFirst()) <==> h == g || h in groups
  {
    if groups != [] {
      InsertDistinct(g, groups[1..]);
      assert groups == [groups[0]] + groups[1..];
      assert forall h :: h in groups[1..] ==> h.code != groups[0].code;
    }
  }

  lemma {:induction false} SortDistinct(groups: seq<CodeRows>)
    requires DistinctCodes(groups)
    ensures DistinctCodes(StableSort(groups, LargestFirst()))
  {
    if groups != [] {
      SortDistinct(groups[1..]);
      SortMembers(groups[1..], LargestFirst());
      assert forall h :: h in groups[1..] ==> h.code != groups[0].code;
      InsertDistinct(groups[0], StableSort(groups[1..], LargestFirst()));
    }
  }

  /** No code has two groups in a category. */
  lemma {:induction false} GroupsDistinct(collate: Collate, rows: seq<Row>, category: string)
    ensures DistinctCodes(GroupOf(collate, rows, category).codes)
  {
    hide Unsorted;
    SortedUnsorted(collate, rows, category);
    var own := Unsorted(collate, rows, category);
    forall j, k | 0 <= j < k < |own| ensures own[j].code != own[k].code {
      UnsortedDistinct(collate, rows, category, j, k);
    }
    SortDistinct(own);
  }

  lemma {:induction false} SortedUnsorted(collate: Collate, rows: seq<Row>, category: string)
    ensures GroupOf(collate, rows, category).codes == StableSort(Unsorted(collate, rows, category), LargestFirst())
  {
  }

  lemma {:induction false} GroupNonEmpty(rows: seq<Row>, category: string, code: string, k: nat, collate: Collate)
    requires k < |Unsorted(collate, rows, category)| && Unsorted(collate, rows, category)[k].code == code
    ensures Filter(rows, Both(InCategory(category), HasCode(code))) != []
  {
    hide Unsorted, Normal;
    var own := Filter(rows, InCategory(category));
    GroupHolds(collate, rows, category, k);
    UnsortedLength(collate, rows, category);
    assert code in Dedup(Codes(own));
    CodesMembers(own, code);
    FilterEmpty(own, HasCode(code));
    FilterTwice(rows, InCategory(category), HasCode(code));
  }

  lemma {:induction false} GroupedStep(collate: Collate, rows: seq<Row>, n: nat)
    requires n < |CATEGORY_ORDER|
    ensures Grouped(collate, rows, n + 1)
         == Grouped(collate, rows, n)
            + (if Filter(rows, InCategory(CATEGORY_ORDER[n])) == [] then []
                else [GroupOf(collate, rows, CATEGORY_ORDER[n])])
  {
    hide Filter, GroupOf, Normal, CATEGORY_ORDER;
  }

  lemma {:induction false} NothingGrouped(collate: Collate, rows: seq<Row>)
    ensures Grouped(collate, rows, 0) == []
  {
  }

  function CategoriesOf(groups: seq<CategoryGroup>): seq<string> {
    if groups == [] then [] else CategoriesOf(groups[..|groups| - 1]) + [groups[|groups| - 1].category]
  }

  function HasRows(rows: seq<Row>): string -> bool {
    (category: string) => Filter(rows, InCategory(category)) != []
  }

  /** The categories of the result are those with rows, in evaluation order. */
  lemma {:induction false} GroupedCategories(collate: Collate, rows: seq<Row>, n: nat)
    requires n <= |CATEGORY_ORDER|
    ensures CategoriesOf(Grouped(collate, rows, n)) == Filter(CATEGORY_ORDER[..n], HasRows(rows))
  {
    hide Normal, GroupOf, Grouped;
    if n == 0 {
      NothingGrouped(collate, rows);
    } else {
      var before, category := Grouped(collate, rows, n - 1), CATEGORY_ORDER[n - 1];
      GroupedCategories(collate, rows, n - 1);
      GroupedStep(collate, rows, n - 1);
      GroupOfIs(collate, rows, category);
      assert CATEGORY_ORDER[..n] == CATEGORY_ORDER[..n - 1] + [category];
      FilterSnoc(CATEGORY_ORDER[..n - 1], category, HasRows(rows));
      if HasRows(rows)(category) {
        assert (before + [GroupOf(collate, rows, category)])[..|before|] == before;
      } else {
        assert Grouped(collate, rows, n) == before;
      }
    }
  }

  /** Each group of the result is that of its category, which has rows; and each category with rows
      has its group in the result. */
  lemma {:induction false} GroupedMembers(collate: Collate, rows: seq<Row>, n: nat)
    requires n <= |CATEGORY_ORDER|
    ensures forall g :: g in Grouped(collate, rows, n) ==>
              && g.category in CATEGORY_ORDER[..n] && g == GroupOf(collate, rows, g.category) && g.count > 0
    ensures forall k :: 0 <= k < n && Filter(rows, InCategory(CATEGORY_ORDER[k])) != [] ==>
              GroupOf(collate, rows, CATEGORY_ORDER[k]) in Grouped(collate, rows, n)
  {
    hide Filter, Normal, GroupOf, Grouped;
    if n == 0 {
      NothingGrouped(collate, rows);
    } else {
      var category := CATEGORY_ORDER[n - 1];
      GroupedMembers(collate, rows, n - 1);
      GroupedStep(collate, rows, n - 1);
      GroupOfIs(collate, rows, category);
      assert CATEGORY_ORDER[..n] == CATEGORY_ORDER[..n - 1] + [category];
    }
  }

  // ------------------------------------------------------------- sizes of a code's groups

  /** Rows in the groups of a code. */
  function CodeSize(groups: seq<CodeRows>, code: string): nat {
    if groups == [] then 0 else (if groups[0].code == code then |groups[0].rows| else 0) + CodeSize(groups[1..], code)
  }

  /** Rows in the groups of a code over all categories of a result. */
  function CodeSizeAll(groups: seq<CategoryGroup>, code: string): nat {
    if groups == [] then 0 else CodeSizeAll(groups[..|groups| - 1], code) + CodeSize(groups[|groups| - 1].codes, code)
  }

  lemma {:induction false} CodeSizeConcat(a: seq<CodeRows>, b: seq<CodeRows>, code: string)
    ensures CodeSize(a + b, code) == CodeSize(a, code) + CodeSize(b, code)
  {
    if a == [] {
      assert a + b == b;
    } else {
      assert (a + b)[1..] == a[1..] + b;
      CodeSizeConcat(a[1..], b, code);
    }
  }

  lemma {:induction false} CodeSizeInsert(g: CodeRows, groups: seq<CodeRows>, code: string)
    ensures CodeSize(Insert(g, groups, LargestFirst()), code) == CodeSize([g] + groups, code)
  {
    assert ([g] + groups)[1..] == groups;
    if groups != [] && !LargestFirst()(g, groups[0]) {
      CodeSizeInsert(g, groups[1..], code);
      assert ([g] + groups[1..])[1..] == groups[1..];
      assert Insert(g, groups, LargestFirst())[1..] == Insert(g, groups[1..], LargestFirst());
    }
  }

  lemma {:induction false} CodeSizeSort(groups: seq<CodeRows>, code: string)
    ensures CodeSize(StableSort(groups, LargestFirst()), code) == CodeSize(groups, code)
  {
    if groups != [] {
      CodeSizeSort(groups[1..], code);
      CodeSizeInsert(groups[0], StableSort(groups[1..], LargestFirst()), code);
      assert ([groups[0]] + StableSort(groups[1..], LargestFirst()))[1..] == StableSort(groups[1..], LargestFirst());
    }
  }

  lemma {:induction false} CodeSizeSortEach(collate: Collate, groups: seq<CodeRows>, code: string)
    ensures CodeSize(SortEach(collate, groups), code) == CodeSize(groups, code)
  {
    if groups != [] {
      var front, last := groups[..|groups| - 1], groups[|groups| - 1];
      CodeSizeSortEach(collate, front, code);
      assert groups == front + [last];
      SortMembers(last.rows, NewestFirst(collate));
      CodeSizeConcat(SortEach(collate, front), [CodeRows(last.code, StableSort(last.rows, NewestFirst(collate)))],
          code);
      CodeSizeConcat(front, [last], code);
    }
  }

  lemma {:induction false} CodeSizeGroupAll(codes: seq<string>, rows: seq<Row>, code: string)
    requires Distinct(codes)
    ensures CodeSize(GroupAll(codes, rows), code) == if code in codes then |Filter(rows, HasCode(code))| else 0
  {
    hide Filter;
    if codes != [] {
      var first, rest := codes[0], codes[1..];
      CodeSizeGroupAll(rest, rows, code);
      assert code in codes <==> code == first || code in rest by {
        assert codes == [first] + rest;
      }
      var groups := GroupAll(codes, rows);
      assert groups == [CodeRows(first, Filter(rows, HasCode(first)))] + GroupAll(rest, rows);
      assert groups[1..] == GroupAll(rest, rows);
      if first == code {
        assert code !in rest;
      }
    }
  }

  /** In a category, the groups of a code hold as many rows as there are of both. */
  lemma {:induction false} CodeSizeGroupOf(collate: Collate, rows: seq<Row>, category: string, code: string)
    ensures CodeSize(GroupOf(collate, rows, category).codes, code)
         == |Filter(rows, Both(InCategory(category), HasCode(code)))|
  {
    hide Normal, CodeSize, Dedup, GroupAll, SortEach;
    var own := Filter(rows, InCategory(category));
    CodeSizeSort(SortEach(collate, CodeGroups(own)), code);
    CodeSizeSortEach(collate, CodeGroups(own), code);
    CodeSizeGroupAll(Dedup(Codes(own)), own, code);
    CodesMembers(own, code);
    FilterEmpty(own, HasCode(code));
    FilterTwice(rows, InCategory(category), HasCode(code));
  }

  lemma {:induction false} CodeSizeAllSnoc(groups: seq<CategoryGroup>, g: CategoryGroup, code: string)
    ensures CodeSizeAll(groups + [g], code) == CodeSizeAll(groups, code) + CodeSize(g.codes, code)
  {
    assert (groups + [g])[..|groups|] == groups;
  }

  lemma {:induction false} SplitCount(rows: seq<Row>, p: Row -> bool, q: Row -> bool, both: Row -> bool)
    requires forall r: Row :: both(r) == (p(r) || q(r)) && !(p(r) && q(r))
    ensures |Filter(rows, both)| == |Filter(rows, p)| + |Filter(rows, q)|
  {
    FilterDisjoint(rows, p, q, both);
    assert |multiset(Filter(rows, both))| == |multiset(Filter(rows, p))| + |multiset(Filter(rows, q))|;
  }

  /** One category more adds its own rows of a code. */
  lemma {:induction false} CodeSizeStep(collate: Collate, rows: seq<Row>, code: string, n: nat)
    requires n < |CATEGORY_ORDER|
    ensures CodeSizeAll(Grouped(collate, rows, n + 1), code)
         == CodeSizeAll(Grouped(collate, rows, n), code)
             + |Filter(rows, Both(InCategory(CATEGORY_ORDER[n]), HasCode(code)))|
  {
    hide Filter, GroupOf, Normal, CATEGORY_ORDER, Grouped, CodeSize, CodeSizeAll;
    var category := CATEGORY_ORDER[n];
    GroupedStep(collate, rows, n);
    if Filter(rows, InCategory(category)) == [] {
      assert Grouped(collate, rows, n + 1) == Grouped(collate, rows, n);
      FilterEmpty(rows, InCategory(category));
      FilterEmpty(rows, Both(InCategory(category), HasCode(code)));
    } else {
      CodeSizeGroupOf(collate, rows, category, code);
      CodeSizeAllSnoc(Grouped(collate, rows, n), GroupOf(collate, rows, category), code);
    }
  }

  lemma {:induction false} CodeSizeGrouped(collate: Collate, rows: seq<Row>, code: string, n: nat)
    requires n <= |CATEGORY_ORDER|
    ensures CodeSizeAll(Grouped(collate, rows, n), code) == |Filter(rows, Both(InFirst(n), HasCode(code)))|
  {
    hide Normal, Filter, CATEGORY_ORDER, Grouped;
    if n == 0 {
      FilterEmpty(rows, Both(InFirst(0), HasCode(code)));
      NothingGrouped(collate, rows);
    } else {
      var category := CATEGORY_ORDER[n - 1];
      CodeSizeGrouped(collate, rows, code, n - 1);
      CodeSizeStep(collate, rows, code, n - 1);
      OrderDistinct(n - 1);
      SplitCount(rows, Both(InFirst(n - 1), HasCode(code)), Both(InCategory(category), HasCode(code)),
          Both(InFirst(n), HasCode(code)));
    }
  }

  /** The groups of a code in the whole result hold all rows of that code. */
  lemma {:induction false} CodeSizeTotal(collate: Collate, rows: seq<Row>, code: string)
    ensures CodeSizeAll(Grouped(collate, rows, |CATEGORY_ORDER|), code) == |Filter(rows, HasCode(code))|
  {
    hide Normal, Filter, Grouped, CodeSizeAll;
    CodeSizeGrouped(collate, rows, code, |CATEGORY_ORDER|);
    assert CATEGORY_ORDER[..|CATEGORY_ORDER|] == CATEGORY_ORDER;
    forall r | r in rows ensures Both(InFirst(|CATEGORY_ORDER|), HasCode(code))(r) == HasCode(code)(r) {
      EveryCategoryListed(r.category);
    }
    FilterCong(rows, Both(InFirst(|CATEGORY_ORDER|), HasCode(code)), HasCode(code));
  }

  // ------------------------------------------------------------- counts of the groups

  function CountTotal(groups: seq<CategoryGroup>): nat {
    if groups == [] then 0 else CountTotal(groups[..|groups| - 1]) + groups[|groups| - 1].count
  }

  lemma {:induction false} CountStep(collate: Collate, rows: seq<Row>, n: nat)
    requires n < |CATEGORY_ORDER|
    ensures CountTotal(Grouped(collate, rows, n + 1))
         == CountTotal(Grouped(collate, rows, n)) + |Filter(rows, InCategory(CATEGORY_ORDER[n]))|
  {
    hide Filter, Normal, CATEGORY_ORDER, Grouped, CodeGroups, SortEach, Insert;
    var before, g := Grouped(collate, rows, n), GroupOf(collate, rows, CATEGORY_ORDER[n]);
    GroupedStep(collate, rows, n);
    if Filter(rows, InCategory(CATEGORY_ORDER[n])) == [] {
      assert Grouped(collate, rows, n + 1) == before;
    } else {
      assert (before + [g])[..|before|] == before;
    }
  }

  lemma {:induction false} CountGrouped(collate: Collate, rows: seq<Row>, n: nat)
    requires n <= |CATEGORY_ORDER|
    ensures CountTotal(Grouped(collate, rows, n)) == |Filter(rows, InFirst(n))|
  {
    hide Normal, Filter, CATEGORY_ORDER, Grouped;
    if n == 0 {
      FilterEmpty(rows, InFirst(0));
      NothingGrouped(collate, rows);
    } else {
      CountGrouped(collate, rows, n - 1);
      CountStep(collate, rows, n - 1);
      OrderDistinct(n - 1);
      SplitCount(rows, InFirst(n - 1), InCategory(CATEGORY_ORDER[n - 1]), InFirst(n));
    }
  }

  /** The counts of the groups add up to the number of rows. */
  lemma {:induction false} CountsAddUp(collate: Collate, rows: seq<Row>)
    ensures CountTotal(Grouped(collate, rows, |CATEGORY_ORDER|)) == |rows|
  {
    hide Normal, Filter, Grouped, CountTotal;
    CountGrouped(collate, rows, |CATEGORY_ORDER|);
    assert CATEGORY_ORDER[..|CATEGORY_ORDER|] == CATEGORY_ORDER;
    forall r | r in rows ensures InFirst(|CATEGORY_ORDER|)(r) {
      EveryCategoryListed(r.category);
    }
    FilterAll(rows, InFirst(|CATEGORY_ORDER|));
  }

  // ------------------------------------------------------------- categories and orders in words

  /** A row belongs to its own category, or to `policy` if that is none of the four. */
  predicate Belongs(r: Row, category: string) {
    || r.category == category
    || (category == "policy" && r.category != "not_granted" && r.category != "state" && r.category != "human")
  }

  lemma {:induction false} BelongsIs(r: Row, category: string)
    requires category == "not_granted" || category == "policy" || category == "state" || category == "human"
    ensures InCategory(category)(r) <==> Belongs(r, category)
  {
    assert CATEGORY_ORDER == ["not_granted", "policy", "state", "human"];
    assert forall c :: c in CATEGORY_ORDER <==> c == "not_granted" || c == "policy" || c == "state" || c == "human";
  }

  /** Main result on the result as a whole: its categories are those of the four, in this order, that
      some row belongs to. */
  lemma {:induction false} CategoriesInOrder(collate: Collate, rows: seq<Row>)
    ensures CategoriesOf(Grouped(collate, rows, |CATEGORY_ORDER|))
         == Filter(["not_granted", "policy", "state", "human"], HasRows(rows))
    ensures forall c :: c in {"not_granted", "policy", "state", "human"} ==>
              (HasRows(rows)(c) <==> exists r :: r in rows && Belongs(r, c))
  {
    hide Grouped, CategoriesOf, InCategory, Filter;
    GroupedCategories(collate, rows, |CATEGORY_ORDER|);
    assert CATEGORY_ORDER[..|CATEGORY_ORDER|] == ["not_granted", "policy", "state", "human"];
    forall c | c in {"not_granted", "policy", "state", "human"}
      ensures HasRows(rows)(c) <==> exists r :: r in rows && Belongs(r, c)
    {
      FilterEmpty(rows, InCategory(c));
      forall r ensures InCategory(c)(r) <==> Belongs(r, c) {
        BelongsIs(r, c);
      }
    }
  }

  function TimeText(r: Row): string {
    match r.at
    case Some(at) => at
    case None => ""
  }

  /** Main result on the orders, in sizes and collated times: larger groups come first, and within a
      group the rows of the category and code, newest first. */
  lemma {:induction false} GroupsInOrder(collate: Collate, rows: seq<Row>, category: string)
    requires category == "not_granted" || category == "policy" || category == "state" || category == "human"
    ensures var codes := GroupOf(collate, rows, category).codes;
            && (forall i, j :: 0 <= i < j < |codes| ==> |codes[i].rows| >= |codes[j].rows|)
            && (forall g, i, j :: g in codes && 0 <= i < j < |g.rows| ==>
                collate(TimeText(g.rows[i])) >= collate(TimeText(g.rows[j])))
            && (forall g, r :: g in codes ==>
                (r in g.rows <==> r in rows && Belongs(r, category) && r.code == g.code))
  {
    hide GroupOf, Normal, Ties, Unsorted;
    var codes := GroupOf(collate, rows, category).codes;
    if codes != [] {
      GroupOrder(collate, rows, category, codes[0]);
    }
    forall g | g in codes
      ensures forall i, j :: 0 <= i < j < |g.rows| ==> collate(TimeText(g.rows[i])) >= collate(TimeText(g.rows[j]))
      ensures forall r :: r in g.rows <==> r in rows && Belongs(r, category) && r.code == g.code
    {
      RowOrder(collate, rows, category, g);
      forall i, j | 0 <= i < j < |g.rows| ensures collate(TimeText(g.rows[i])) >= collate(TimeText(g.rows[j])) {
        assert NewestFirst(collate)(g.rows[i], g.rows[j]);
        assert AtText(g.rows[i]) == TimeText(g.rows[i]) && AtText(g.rows[j]) == TimeText(g.rows[j]);
      }
      forall r ensures r in g.rows <==> r in rows && Belongs(r, category) && r.code == g.code {
        BelongsIs(r, category);
      }
    }
  }

  /** Rows of a code, counted one by one. */
  function RowCount(rows: seq<Row>, code: string): nat {
    if rows == [] then 0 else (if rows[0].code == code then 1 else 0) + RowCount(rows[1..], code)
  }

  lemma {:induction false} RowCountIs(rows: seq<Row>, code: string)
    ensures RowCount(rows, code) == |Filter(rows, HasCode(code))|
  {
    if rows != [] {
      RowCountIs(rows[1..], code);
    }
  }
}
