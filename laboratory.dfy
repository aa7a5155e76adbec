/** The laboratory screen: the per-visit working set of ordered test components, its summary
    line, adding and removing tests, and submission of the new entries as result rows and
    de-duplicated billing rows, followed by a re-read of the visit's stored results. */
module Laboratory {
  import opened Wrappers
  import opened Store
  import opened Seqs
  import opened Text

  /** A configured test of the catalog, as far as ordering uses it. */
  datatype CatalogTest = CatalogTest(id: int, name: string, testPrice: Option<nat>)

  /** A component definition loaded for the selected test. */
  datatype ComponentDef = ComponentDef(name: string, units: string, lowerLimit: string, upperLimit: string)

  /** A working-set id: provisional for an entry added on this screen, the store's key for a row
      read back from the results table. */
  datatype EntryId = Provisional(seqNo: nat) | Stored(key: int)

  /** One line of the working set (`requestedTests`). Rows read back from the store carry no price,
      no status and a false `is_new`. */
  datatype LineItem = LineItem(id: EntryId, testName: string, componentName: string,
                               testPrice: Option<nat>, lowerLimit: string, upperLimit: string,
                               units: string, isNew: bool, status: Option<string>)

  /** A row of the results table as read back for a visit. */
  datatype StoredRow = StoredRow(id: int, testName: string, componentName: string,
                                 lowerLimit: string, upperLimit: string, units: string)

  /** A row handed to the results-table insert. */
  datatype ResultRow = ResultRow(visitId: int, testName: string, componentName: string,
                                 lowerLimit: string, upperLimit: string, units: string)

  /** A row handed to the billing-queue insert. */
  datatype BillingRow = BillingRow(visitId: int, patientId: int, itemName: string,
                                   unitCost: nat, quantity: nat, status: string)

  datatype CalendarDate = CalendarDate(year: int, month: int, day: int)

  /** A patient's date of birth: absent (empty), not a date, or a calendar date. */
  datatype Dob = NoDob | InvalidDob | BirthDate(date: CalendarDate)

  datatype Patient = Patient(id: int, dob: Dob)
  datatype Visit = Visit(id: int, patient: Patient)
  datatype Scheme = Scheme(name: string)

  datatype Age = NoAge | AgeYears(years: int)

  datatype AddOutcome = Alerted(message: string) | UnknownTest | Added(count: nat)

  datatype SubmitOutcome = Skipped | SubmitFailed(alert: string) | Submitted

  const OrderedStatus := "Ordered"
  const UnpaidStatus := "Unpaid"
  const SummarySeparator := ", "
  const NoPatientAlert := "Please select a patient from the queue first."
  const NoTestAlert := "Please select a test from the list."
  const SubmitAlertPrefix := "Submission failed: "
  const SubmittedNotice := Notice("Report Submitted", "Lab tests saved and sent to billing successfully.", Success)

  // ---------------------------------------------------------------------------------------------
  // Working-set derivations

  function TestNames(items: seq<LineItem>): (r: seq<string>)
    ensures |r| == |items| && forall k :: 0 <= k < |items| ==> r[k] == items[k].testName
  {
    seq(|items|, k requires 0 <= k < |items| => items[k].testName)
  }

  lemma TestNamesAppend(a: seq<LineItem>, b: seq<LineItem>)
    ensures TestNames(a + b) == TestNames(a) + TestNames(b)
  {
  }

  /** The summary kept after add, remove and submit: the distinct test names, first seen first. */
  function Summary(items: seq<LineItem>): string {
    Join(Distinct(TestNames(items)), SummarySeparator)
  }

  /** The summary set on patient selection: every row's test name, duplicates kept. */
  function PlainSummary(items: seq<LineItem>): string {
    Join(TestNames(items), SummarySeparator)
  }

  /** The two summaries agree exactly when no test name repeats: a repeated name makes the
      plain summary longer by at least one separator. */
  lemma SummariesAgreeWhenNamesDistinct(items: seq<LineItem>)
    ensures Distinct(TestNames(items)) == TestNames(items) <==> NoDuplicates(TestNames(items))
    ensures NoDuplicates(TestNames(items)) <==> Summary(items) == PlainSummary(items)
  {
    var names := TestNames(items);
    DistinctIdentity(names);
    if !NoDuplicates(names) {
      var d := Distinct(names);
      DistinctLength(names);
      DistinctSumLengths(names);
      assert names[0] in d;
      assert |SummarySeparator| == 2;
      assert |Summary(items)| < |PlainSummary(items)|;
    }
  }

  /** Dropping repeats never lengthens the total text. */
  lemma {:induction false} DistinctSumLengths(parts: seq<string>)
    ensures SumLengths(Distinct(parts)) <= SumLengths(parts)
    decreases |parts|
  {
    if |parts| > 0 {
      var init, last := parts[..|parts| - 1], parts[|parts| - 1];
      DistinctSumLengths(init);
      assert parts == init + [last];
      SumLengthsSnoc(init, last);
      var d := Distinct(init);
      if last !in d {
        SumLengthsSnoc(d, last);
      }
    }
  }

  /** A row read back from the results table, as it sits in the working set. */
  function StoredItem(row: StoredRow): LineItem {
    LineItem(Stored(row.id), row.testName, row.componentName, None,
             row.lowerLimit, row.upperLimit, row.units, false, None)
  }

  function StoredItems(rows: seq<StoredRow>): (r: seq<LineItem>)
    ensures |r| == |rows|
    ensures forall k :: 0 <= k < |rows| ==> r[k] == StoredItem(rows[k])
  {
    seq(|rows|, k requires 0 <= k < |rows| => StoredItem(rows[k]))
  }

  /** Every provisional id in the working set was drawn from the supply below `next`. */
  ghost predicate ProvisionalBelow(items: seq<LineItem>, next: nat) {
    forall e | e in items && e.id.Provisional? :: e.id.seqNo < next
  }

  /** No two entries of the working set share a provisional id. */
  ghost predicate ProvisionalUnique(items: seq<LineItem>) {
    forall i, j :: 0 <= i < |items| && 0 <= j < |items| && i != j && items[i].id.Provisional?
                   ==> items[i].id != items[j].id
  }

  lemma StoredItemsUnique(rows: seq<StoredRow>)
    ensures ProvisionalUnique(StoredItems(rows)) && ProvisionalBelow(StoredItems(rows), 0)
  {
  }

  // ---------------------------------------------------------------------------------------------
  // Adding a test

  /** The first catalog entry with the selected id. */
  function FindCatalogTest(catalog: seq<CatalogTest>, id: int): (r: Option<CatalogTest>)
    ensures r.Some? ==> r.value in catalog && r.value.id == id
    ensures r.Some? ==> exists i :: 0 <= i < |catalog| && catalog[i] == r.value
                                    && forall j :: 0 <= j < i ==> catalog[j].id != id
    ensures r.None? <==> forall k :: 0 <= k < |catalog| ==> catalog[k].id != id
  {
    Find(catalog, (t: CatalogTest) => t.id == id)
  }

  /** The loaded components, or the single fallback standing for the test itself. */
  function ComponentsToAdd(test: CatalogTest, loaded: seq<ComponentDef>): seq<ComponentDef> {
    if |loaded| > 0 then loaded else [ComponentDef(test.name, "", "", "")]
  }

  function Entry(test: CatalogTest, c: ComponentDef, seqNo: nat): LineItem {
    LineItem(Provisional(seqNo), test.name, c.name, test.testPrice,
             c.lowerLimit, c.upperLimit, c.units, true, Some(OrderedStatus))
  }

  /** The entries one add appends: one per loaded component, or one fallback entry named after
      the test when no component is loaded; ids are drawn in order from `firstSeqNo`. */
  function NewEntries(test: CatalogTest, loaded: seq<ComponentDef>, firstSeqNo: nat): (r: seq<LineItem>)
    ensures |r| == if |loaded| == 0 then 1 else |loaded|
    ensures forall k :: 0 <= k < |r| ==>
              && r[k].id == Provisional(firstSeqNo + k)
              && r[k].testName == test.name && r[k].testPrice == test.testPrice
              && r[k].isNew && r[k].status == Some(OrderedStatus)
    ensures forall k :: 0 <= k < |loaded| ==>
              && r[k].componentName == loaded[k].name && r[k].units == loaded[k].units
              && r[k].lowerLimit == loaded[k].lowerLimit && r[k].upperLimit == loaded[k].upperLimit
    ensures |loaded| == 0 ==>
              r[0].componentName == test.name && r[0].units == "" && r[0].lowerLimit == "" && r[0].upperLimit == ""
  {
    var comps := ComponentsToAdd(test, loaded);
    seq(|comps|, k requires 0 <= k < |comps| => Entry(test, comps[k], firstSeqNo + k))
  }

  /** The appended ids are pairwise distinct, differ from every id already in the working set, and
      the supply stays ahead of every provisional id. */
  lemma NewEntriesFresh(items: seq<LineItem>, test: CatalogTest, loaded: seq<ComponentDef>, next: nat)
    requires ProvisionalBelow(items, next)
    ensures var added := NewEntries(test, loaded, next);
            && (forall i, j :: 0 <= i < j < |added| ==> added[i].id != added[j].id)
            && (forall e, a | e in items && a in added :: e.id != a.id)
            && ProvisionalBelow(items + added, next + |added|)
  {
    var added := NewEntries(test, loaded, next);
    forall a | a in added ensures a.id.Provisional? && next <= a.id.seqNo < next + |added| {
      var k :| 0 <= k < |added| && added[k] == a;
    }
  }

  /** Appending entries whose ids are pairwise distinct and new keeps provisional ids unique. */
  lemma AppendFreshUnique(items: seq<LineItem>, added: seq<LineItem>)
    requires ProvisionalUnique(items)
    requires forall i, j :: 0 <= i < j < |added| ==> added[i].id != added[j].id
    requires forall e, a | e in items && a in added :: e.id != a.id
    ensures ProvisionalUnique(items + added)
  {
    var t := items + added;
    forall i, j | 0 <= i < |t| && 0 <= j < |t| && i != j && t[i].id.Provisional?
      ensures t[i].id != t[j].id
    {
      if i < |items| && j < |items| {
        assert t[i] == items[i] && t[j] == items[j];
      } else if i >= |items| && j >= |items| {
        assert t[i] == added[i - |items|] && t[j] == added[j - |items|];
      } else if i < |items| {
        assert t[i] in items && t[j] in added;
      } else {
        assert t[j] in items && t[i] in added;
      }
    }
  }

  /** After an add, the summary's name list gains the test's name at the end, unless the name was
      already in the working set. */
  lemma {:induction false} AddSummary(items: seq<LineItem>, test: CatalogTest, loaded: seq<ComponentDef>, next: nat)
    ensures Distinct(TestNames(items + NewEntries(test, loaded, next)))
            == if test.name in TestNames(items) then Distinct(TestNames(items))
               else Distinct(TestNames(items)) + [test.name]
  {
    var added := NewEntries(test, loaded, next);
    TestNamesAppend(items, added);
    DistinctAppendSame(TestNames(items), TestNames(added), test.name);
  }

  /** The same for the summary text: an add leaves it as it was when the test's name is already
      listed, and otherwise appends the separator and the name, or sets the name alone when the
      working set was empty. */
  lemma AddSummaryText(items: seq<LineItem>, test: CatalogTest, loaded: seq<ComponentDef>, next: nat)
    ensures Summary(items + NewEntries(test, loaded, next))
            == if test.name in TestNames(items) then Summary(items)
               else if |items| == 0 then test.name
               else Summary(items) + SummarySeparator + test.name
  {
    AddSummary(items, test, loaded, next);
    var names := TestNames(items);
    var d := Distinct(names);
    if test.name !in names {
      JoinSnoc(d, test.name, SummarySeparator);
      if |items| > 0 {
        assert names[0] in d;
      }
    }
  }

  // ---------------------------------------------------------------------------------------------
  // Removing an entry

  /** The trash button: the entries whose id differs from `target`, in their original order. */
  function RemoveById(items: seq<LineItem>, target: EntryId): (r: seq<LineItem>)
    ensures forall e :: e in r <==> e in items && e.id != target
    ensures IsSubsequence(r, items)
    ensures (forall k :: 0 <= k < |items| ==> items[k].id != target) ==> r == items
  {
    var keep := (e: LineItem) => e.id != target;
    FilterIsSubsequence(items, keep);
    if forall k :: 0 <= k < |items| ==> keep(items[k]) then
      FilterKeepsAll(items, keep);
      Filter(items, keep)
    else
      Filter(items, keep)
  }

  /** The trash button drops every copy of an entry with that id and keeps every copy of the others. */
  lemma RemoveByIdCounts(items: seq<LineItem>, target: EntryId)
    ensures forall e :: multiset(RemoveById(items, target))[e] == if e.id != target then multiset(items)[e] else 0
  {
    FilterCounts(items, (e: LineItem) => e.id != target);
  }

  /** With provisional ids unique, the trash button on a provisional id removes that one entry
      when it is present and nothing otherwise, and the ids left stay unique. */
  lemma RemoveByIdUnique(items: seq<LineItem>, target: EntryId)
    requires ProvisionalUnique(items)
    ensures ProvisionalUnique(RemoveById(items, target))
    ensures target.Provisional? ==>
              |RemoveById(items, target)|
              == if exists k :: 0 <= k < |items| && items[k].id == target then |items| - 1 else |items|
  {
    FilterUnique(items, (e: LineItem) => e.id != target, target);
  }

  lemma {:induction false} FilterUnique(s: seq<LineItem>, keep: LineItem -> bool, target: EntryId)
    requires ProvisionalUnique(s)
    requires forall e :: keep(e) <==> e.id != target
    ensures ProvisionalUnique(Filter(s, keep))
    ensures target.Provisional? ==>
              |Filter(s, keep)| == if exists k :: 0 <= k < |s| && s[k].id == target then |s| - 1 else |s|
    decreases |s|
  {
    if |s| > 0 {
      var tail := s[1..];
      TailUnique(s);
      FilterUnique(tail, keep, target);
      if keep(s[0]) {
        ConsUnique(s[0], Filter(tail, keep));
        if target.Provisional? {
          TargetInTail(s, target);
        }
      } else if target.Provisional? {
        forall k | 0 <= k < |tail| ensures keep(tail[k]) {
          assert tail[k] == s[k + 1];
        }
        FilterKeepsAll(tail, keep);
      }
    }
  }

  /** The tail of a list with unique provisional ids has them too, and none equals the head's. */
  lemma TailUnique(s: seq<LineItem>)
    requires |s| > 0 && ProvisionalUnique(s)
    ensures ProvisionalUnique(s[1..])
    ensures forall e | e in s[1..] :: s[0].id.Provisional? ==> e.id != s[0].id
  {
    var tail := s[1..];
    forall i, j | 0 <= i < |tail| && 0 <= j < |tail| && i != j && tail[i].id.Provisional?
      ensures tail[i].id != tail[j].id
    {
      assert tail[i] == s[i + 1] && tail[j] == s[j + 1];
    }
    forall e | e in tail ensures s[0].id.Provisional? ==> e.id != s[0].id {
      var k :| 0 <= k < |tail| && tail[k] == e;
      assert s[k + 1] == e;
    }
  }

  lemma ConsUnique(x: LineItem, rest: seq<LineItem>)
    requires ProvisionalUnique(rest)
    requires forall e | e in rest :: x.id.Provisional? ==> e.id != x.id
    ensures ProvisionalUnique([x] + rest)
  {
    var r := [x] + rest;
    forall i, j | 0 <= i < |r| && 0 <= j < |r| && i != j && r[i].id.Provisional?
      ensures r[i].id != r[j].id
    {
      if i == 0 {
        assert r[j] in rest;
      } else if j == 0 {
        assert r[i] in rest;
      } else {
        assert r[i] == rest[i - 1] && r[j] == rest[j - 1];
      }
    }
  }

  /** When the head does not carry the target id, the target occurs in the list exactly when it
      occurs in the tail. */
  lemma TargetInTail(s: seq<LineItem>, target: EntryId)
    requires |s| > 0 && s[0].id != target
    ensures (exists k :: 0 <= k < |s| && s[k].id == target)
            <==> (exists k :: 0 <= k < |s[1..]| && s[1..][k].id == target)
  {
    if exists k :: 0 <= k < |s| && s[k].id == target {
      var k :| 0 <= k < |s| && s[k].id == target;
      assert s[1..][k - 1] == s[k];
    }
    if exists k :: 0 <= k < |s[1..]| && s[1..][k].id == target {
      var k :| 0 <= k < |s[1..]| && s[1..][k].id == target;
      assert s[k + 1] == s[1..][k];
    }
  }

  // ---------------------------------------------------------------------------------------------
  // Submission

  /** The entries not yet stored (`is_new`), in working-set order. */
  function NewTests(items: seq<LineItem>): (r: seq<LineItem>)
    ensures forall e :: e in r <==> e in items && e.isNew
    ensures IsSubsequence(r, items)
  {
    var isNew := (e: LineItem) => e.isNew;
    FilterIsSubsequence(items, isNew);
    Filter(items, isNew)
  }

  /** Every copy of a new entry is submitted, and no copy of a stored one. */
  lemma NewTestsCounts(items: seq<LineItem>)
    ensures forall e :: multiset(NewTests(items))[e] == if e.isNew then multiset(items)[e] else 0
  {
    FilterCounts(items, (e: LineItem) => e.isNew);
  }

  /** Rows read back from the store are never new, so a later submit sends nothing again. */
  lemma StoredItemsAreNotNew(rows: seq<StoredRow>)
    ensures NewTests(StoredItems(rows)) == []
  {
    var items := StoredItems(rows);
    FilterKeepsNone(items, (e: LineItem) => e.isNew);
  }

  function ResultRowOf(visitId: int, e: LineItem): ResultRow {
    ResultRow(visitId, e.testName, e.componentName, e.lowerLimit, e.upperLimit, e.units)
  }

  /** The result rows of a submission: one per new entry, in order. */
  function ResultRows(visitId: int, newTests: seq<LineItem>): (r: seq<ResultRow>)
    ensures |r| == |newTests|
    ensures forall k :: 0 <= k < |r| ==> r[k] == ResultRowOf(visitId, newTests[k])
  {
    seq(|newTests|, k requires 0 <= k < |newTests| => ResultRowOf(visitId, newTests[k]))
  }

  /** Every new entry of the working set is emitted and nothing else is: each result row comes from
      a new entry, and each new entry has its row. */
  lemma ResultRowsCoverNewEntries(visitId: int, items: seq<LineItem>)
    ensures var r := ResultRows(visitId, NewTests(items));
            && (forall k :: 0 <= k < |r| ==> exists e :: e in items && e.isNew && r[k] == ResultRowOf(visitId, e))
            && (forall e :: e in items && e.isNew ==> ResultRowOf(visitId, e) in r)
  {
    var pending := NewTests(items);
    var r := ResultRows(visitId, pending);
    forall e | e in items && e.isNew ensures ResultRowOf(visitId, e) in r {
      assert e in pending;
      var k :| 0 <= k < |pending| && pending[k] == e;
      assert r[k] == ResultRowOf(visitId, e);
    }
    forall k | 0 <= k < |r| ensures exists e :: e in items && e.isNew && r[k] == ResultRowOf(visitId, e) {
      var e := pending[k];
      assert e in pending;
      assert r[k] == ResultRowOf(visitId, e);
    }
  }

  /** `sample?.test_price || 0`. */
  function UnitCost(price: Option<nat>): nat {
    price.GetOr(0)
  }

  /** The first new entry with the given test name: the one whose price is billed. */
  function FirstWithName(newTests: seq<LineItem>, name: string): Option<LineItem> {
    Find(newTests, (e: LineItem) => e.testName == name)
  }

  function BillingRowFor(visitId: int, patientId: int, newTests: seq<LineItem>, name: string): BillingRow {
    var cost := match FirstWithName(newTests, name)
                case Some(sample) => UnitCost(sample.testPrice)
                case None => 0;
    BillingRow(visitId, patientId, name, cost, 1, UnpaidStatus)
  }

  /** The billing rows of a submission: one per distinct test name among the new entries, in order
      of first occurrence, each for quantity 1 and unpaid. */
  function BillingRows(visitId: int, patientId: int, newTests: seq<LineItem>): (r: seq<BillingRow>)
    ensures |r| == |Distinct(TestNames(newTests))|
    ensures forall k :: 0 <= k < |r| ==>
              && r[k].itemName == Distinct(TestNames(newTests))[k]
              && r[k].visitId == visitId && r[k].patientId == patientId
              && r[k].quantity == 1 && r[k].status == UnpaidStatus
  {
    var names := Distinct(TestNames(newTests));
    seq(|names|, k requires 0 <= k < |names| => BillingRowFor(visitId, patientId, newTests, names[k]))
  }

  /** Each billing row is for a test name of the new entries, is the only row for that name, and
      costs what the first new entry with that name costs. */
  lemma BillingOnePerName(visitId: int, patientId: int, newTests: seq<LineItem>)
    ensures var r := BillingRows(visitId, patientId, newTests);
            && (forall k, l :: 0 <= k < l < |r| ==> r[k].itemName != r[l].itemName)
            && (forall n :: n in TestNames(newTests) <==> exists k :: 0 <= k < |r| && r[k].itemName == n)
            && (forall k :: 0 <= k < |r| ==>
                  exists i :: 0 <= i < |newTests| && newTests[i].testName == r[k].itemName
                              && r[k].unitCost == UnitCost(newTests[i].testPrice)
                              && forall j :: 0 <= j < i ==> newTests[j].testName != r[k].itemName)
  {
    var names := Distinct(TestNames(newTests));
    var r := BillingRows(visitId, patientId, newTests);
    forall n | n in TestNames(newTests) ensures exists k :: 0 <= k < |r| && r[k].itemName == n {
      var k :| 0 <= k < |names| && names[k] == n;
      assert r[k].itemName == n;
    }
    forall k | 0 <= k < |r|
      ensures exists i :: 0 <= i < |newTests| && newTests[i].testName == r[k].itemName
                          && r[k].unitCost == UnitCost(newTests[i].testPrice)
                          && forall j :: 0 <= j < i ==> newTests[j].testName != r[k].itemName
    {
      var n := names[k];
      assert n in TestNames(newTests);
      var i0 :| 0 <= i0 < |newTests| && TestNames(newTests)[i0] == n;
      var found := FirstWithName(newTests, n);
      assert !(newTests[i0].testName != n);
      assert found.Some?;
    }
  }

  /** Billing rows never outnumber result rows, and they are as many exactly when every new entry
      has a different test name. */
  lemma BillingCount(visitId: int, patientId: int, newTests: seq<LineItem>)
    ensures |BillingRows(visitId, patientId, newTests)| <= |ResultRows(visitId, newTests)|
    ensures |BillingRows(visitId, patientId, newTests)| == |ResultRows(visitId, newTests)|
            <==> NoDuplicates(TestNames(newTests))
  {
    DistinctLength(TestNames(newTests));
  }

  /** Billing follows the order in which test names first appear among the new entries. */
  lemma BillingFirstSeenOrder(visitId: int, patientId: int, newTests: seq<LineItem>)
    ensures var r := BillingRows(visitId, patientId, newTests);
            forall k, l :: 0 <= k < l < |r| ==>
              FirstIndex(TestNames(newTests), r[k].itemName) < FirstIndex(TestNames(newTests), r[l].itemName)
  {
    DistinctFirstSeenOrder(TestNames(newTests));
  }

  /** Adding one test to an empty working set and submitting it: one result row per entry, the
      summary naming the test once, and a single billing row at the test's price, however many
      components it has (CBC with WBC and RBC bills CBC once). */
  lemma SingleTestBillsOnce(test: CatalogTest, loaded: seq<ComponentDef>, next: nat, visitId: int, patientId: int)
    ensures var added := NewEntries(test, loaded, next);
            && |ResultRows(visitId, NewTests(added))| == |added|
            && Summary(added) == test.name
            && BillingRows(visitId, patientId, NewTests(added))
               == [BillingRow(visitId, patientId, test.name, UnitCost(test.testPrice), 1, UnpaidStatus)]
  {
    var added := NewEntries(test, loaded, next);
    assert NewTests(added) == added by {
      FilterKeepsAll(added, (e: LineItem) => e.isNew);
    }
    assert Distinct(TestNames(added)) == [test.name] by {
      var none: seq<string> := [];
      DistinctAppendSame(none, TestNames(added), test.name);
      assert none + TestNames(added) == TestNames(added);
    }
    var bill := BillingRows(visitId, patientId, added);
    assert |bill| == 1;
    assert FirstWithName(added, test.name) == Some(added[0]);
  }

  /** A working set of three new entries, two for test `x` and one for test `y`: three result rows
      and two billing rows, `x` first. */
  lemma BillingDedupScenario(items: seq<LineItem>, x: string, y: string, visitId: int, patientId: int)
    requires forall k :: 0 <= k < |items| ==> items[k].isNew
    requires TestNames(items) == [x, x, y] && x != y
    ensures |ResultRows(visitId, NewTests(items))| == 3
    ensures var bill := BillingRows(visitId, patientId, NewTests(items));
            |bill| == 2 && bill[0].itemName == x && bill[1].itemName == y
  {
    assert NewTests(items) == items by {
      FilterKeepsAll(items, (e: LineItem) => e.isNew);
    }
    DistinctTwoThenOne(x, y);
  }

  lemma DistinctTwoThenOne(x: string, y: string)
    requires x != y
    ensures Distinct([x, x, y]) == [x, y]
  {
    var none: seq<string> := [];
    DistinctAppendSame(none, [x, x], x);
    assert none + [x, x] == [x, x];
    DistinctSnoc([x, x], y);
    assert [x, x] + [y] == [x, x, y];
  }

  // ---------------------------------------------------------------------------------------------
  // Age

  /** The `k`-th birthday of someone born on `birth` falls on or before `today`. */
  predicate BirthdayReached(birth: CalendarDate, k: int, today: CalendarDate) {
    || birth.year + k < today.year
    || (birth.year + k == today.year
        && (birth.month < today.month || (birth.month == today.month && birth.day <= today.day)))
  }

  /** `calculateAge`: "-" without a usable date of birth, otherwise the whole years completed by
      `today`: the year difference, less one while this year's birthday is still ahead. */
  function CalculateAge(dob: Dob, today: CalendarDate): (r: Age)
    ensures r.AgeYears? <==> dob.BirthDate?
    ensures r.AgeYears? ==> forall k :: BirthdayReached(dob.date, k, today) <==> k <= r.years
  {
    match dob
    case NoDob => NoAge
    case InvalidDob => NoAge
    case BirthDate(birth) =>
      var years := today.year - birth.year;
      var months := today.month - birth.month;
      AgeYears(if months < 0 || (months == 0 && today.day < birth.day) then years - 1 else years)
  }

  /** The text shown for an age: "-" or "<years> yrs". */
  function AgeLabel(a: Age): (r: string)
    ensures r == "-" <==> a.NoAge?
    ensures a.AgeYears? ==> r == IntToDecimal(a.years) + " yrs"
  {
    match a
    case NoAge => "-"
    case AgeYears(y) => IntToDecimal(y) + " yrs"
  }

  // ---------------------------------------------------------------------------------------------
  // The screen's state

  class LabOrderScreen {
    var configuredTests: seq<CatalogTest>
    var selectedTestId: Option<int>
    var selectedVisit: Option<Visit>
    var selectedScheme: Option<Scheme>
    var requestedTests: seq<LineItem>
    var requestedSummary: string
    var notice: Option<Notice>
    /** The provisional-id supply. */
    var nextSeqNo: nat

    ghost predicate Valid()
      reads this
    {
      ProvisionalBelow(requestedTests, nextSeqNo) && ProvisionalUnique(requestedTests)
    }

    /** The screen after mounting, with the catalog loaded from the store's answer (empty when the
        load fails). */
    constructor (catalog: Fetch<CatalogTest>)
      ensures Valid()
      ensures configuredTests == RowsOrEmpty(catalog) && selectedTestId.None? && selectedVisit.None? && selectedScheme.None?
      ensures requestedTests == [] && requestedSummary == "" && notice.None? && nextSeqNo == 0
    {
      configuredTests := RowsOrEmpty(catalog);
      selectedTestId, selectedVisit, selectedScheme := None, None, None;
      requestedTests, requestedSummary := [], "";
      notice := None;
      nextSeqNo := 0;
    }

    /** The test drop-down; `None` is the empty "--Select Test--" choice. */
    method SelectTest(id: Option<int>)
      modifies this`selectedTestId
      ensures selectedTestId == id
    {
      selectedTestId := id;
    }

    /** Choosing a patient from the queue: the visit's stored results become the working set and the
        summary lists their test names, duplicates included. */
    method SelectPatient(visit: Visit, scheme: Option<Scheme>, tests: Fetch<StoredRow>)
      requires Valid()
      modifies this`selectedVisit, this`selectedScheme, this`requestedTests, this`requestedSummary
      ensures Valid()
      ensures selectedVisit == Some(visit) && selectedScheme == scheme
      ensures requestedTests == StoredItems(RowsOrEmpty(tests))
      ensures requestedSummary == PlainSummary(requestedTests)
    {
      selectedVisit := Some(visit);
      selectedScheme := scheme;
      requestedTests := StoredItems(RowsOrEmpty(tests));
      requestedSummary := PlainSummary(requestedTests);
    }

    /** The add button, given the components currently loaded for the selected test. */
    method AddTest(loaded: seq<ComponentDef>) returns (outcome: AddOutcome)
      requires Valid()
      modifies this`requestedTests, this`requestedSummary, this`selectedTestId, this`nextSeqNo
      ensures Valid()
      ensures old(selectedVisit).None? ==> outcome == Alerted(NoPatientAlert)
      ensures old(selectedVisit).Some? && old(selectedTestId).None? ==> outcome == Alerted(NoTestAlert)
      ensures (old(selectedVisit).Some? && old(selectedTestId).Some?
               && FindCatalogTest(configuredTests, old(selectedTestId).value).None?) ==> outcome == UnknownTest
      ensures (old(selectedVisit).Some? && old(selectedTestId).Some?
               && FindCatalogTest(configuredTests, old(selectedTestId).value).Some?) ==> outcome.Added?
      ensures !outcome.Added? ==>
                && requestedTests == old(requestedTests) && requestedSummary == old(requestedSummary)
                && selectedTestId == old(selectedTestId) && nextSeqNo == old(nextSeqNo)
      ensures outcome.Added? ==>
                && old(selectedVisit).Some? && old(selectedTestId).Some?
                && FindCatalogTest(configuredTests, old(selectedTestId).value).Some?
                && var test := FindCatalogTest(configuredTests, old(selectedTestId).value).value;
                   var added := NewEntries(test, loaded, old(nextSeqNo));
                   && requestedTests == old(requestedTests) + added
                   && requestedSummary == Summary(requestedTests)
                   && selectedTestId.None?
                   && nextSeqNo == old(nextSeqNo) + |added| && outcome.count == |added|
    {
      if selectedVisit.None? {
        return Alerted(NoPatientAlert);
      }
      if selectedTestId.None? {
        return Alerted(NoTestAlert);
      }
      var found := FindCatalogTest(configuredTests, selectedTestId.value);
      if found.None? {
        return UnknownTest;
      }
      var added := NewEntries(found.value, loaded, nextSeqNo);
      NewEntriesFresh(requestedTests, found.value, loaded, nextSeqNo);
      AppendFreshUnique(requestedTests, added);
      requestedTests := requestedTests + added;
      requestedSummary := Summary(requestedTests);
      nextSeqNo := nextSeqNo + |added|;
      selectedTestId := None;
      outcome := Added(|added|);
    }

    /** The trash button of one row. */
    method RemoveEntry(target: EntryId)
      requires Valid()
      modifies this`requestedTests, this`requestedSummary
      ensures Valid()
      ensures requestedTests == RemoveById(old(requestedTests), target)
      ensures requestedSummary == Summary(requestedTests)
      ensures target.Provisional? && (exists k :: 0 <= k < |old(requestedTests)| && old(requestedTests)[k].id == target)
              ==> |requestedTests| == |old(requestedTests)| - 1
    {
      RemoveByIdUnique(requestedTests, target);
      requestedTests := RemoveById(requestedTests, target);
      requestedSummary := Summary(requestedTests);
    }

    /** "Submit & Bill": the store's answers to the two inserts and to the re-read are inputs; the
        rows handed to each insert are outputs (`None`: that insert was not made). */
    method Submit(resultsInsert: StoreResult, billingInsert: StoreResult, reread: Fetch<StoredRow>)
      returns (outcome: SubmitOutcome, sentResults: Option<seq<ResultRow>>, sentBilling: Option<seq<BillingRow>>)
      requires Valid()
      modifies this`requestedTests, this`requestedSummary, this`notice
      ensures Valid()
      ensures outcome.Skipped? <==> old(selectedVisit).None? || |old(requestedTests)| == 0
      ensures outcome.Skipped? ==>
                && sentResults.None? && sentBilling.None?
                && requestedTests == old(requestedTests) && requestedSummary == old(requestedSummary)
                && notice == old(notice)
      ensures !outcome.Skipped? ==>
                var visit := old(selectedVisit).value;
                var pending := NewTests(old(requestedTests));
                && sentResults == (if |pending| == 0 then None else Some(ResultRows(visit.id, pending)))
                && sentBilling == (if |pending| == 0 || resultsInsert.Failed? then None
                                   else Some(BillingRows(visit.id, visit.patient.id, pending)))
                && (outcome.Submitted? <==> |pending| == 0 || (resultsInsert.Ok? && billingInsert.Ok?))
                && (outcome.SubmitFailed? ==>
                      outcome.alert == SubmitAlertPrefix
                                       + (if resultsInsert.Failed? then resultsInsert.message else billingInsert.message))
      ensures outcome.SubmitFailed? ==>
                requestedTests == old(requestedTests) && requestedSummary == old(requestedSummary) && notice == old(notice)
      ensures outcome.Submitted? ==>
                && requestedTests == StoredItems(RowsOrEmpty(reread))
                && requestedSummary == Summary(requestedTests)
                && notice == Some(SubmittedNotice)
    {
      sentResults, sentBilling := None, None;
      if selectedVisit.None? || |requestedTests| == 0 {
        return Skipped, None, None;
      }
      var visit := selectedVisit.value;
      var pending := NewTests(requestedTests);
      if |pending| > 0 {
        sentResults := Some(ResultRows(visit.id, pending));
        if resultsInsert.Failed? {
          return SubmitFailed(SubmitAlertPrefix + resultsInsert.message), sentResults, None;
        }
        sentBilling := Some(BillingRows(visit.id, visit.patient.id, pending));
        if billingInsert.Failed? {
          return SubmitFailed(SubmitAlertPrefix + billingInsert.message), sentResults, sentBilling;
        }
      }
      notice := Some(SubmittedNotice);
      requestedTests := StoredItems(RowsOrEmpty(reread));
      requestedSummary := Summary(requestedTests);
      outcome := Submitted;
    }
  }
}
