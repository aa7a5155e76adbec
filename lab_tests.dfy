/** The lab-test configuration screen: search over the configured tests, categories and specimens,
    the test form with its save guard and reset, the component form, the double-click that loads a
    record into the form, and the tests offered as panel members. */
module LabTests {
  import opened Wrappers
  import opened Store
  import opened Seqs
  import opened Text

  /** A configured test as the store returns it; any field but the id may be null. */
  datatype LabTestRecord = LabTestRecord(id: int, name: Option<string>, description: Option<string>,
                                         category: Option<string>, specimen: Option<string>,
                                         service: Option<string>, testPrice: Option<nat>,
                                         testCode: Option<string>, machine: Option<string>,
                                         printReferenceRanges: Option<bool>)

  /** A category or a specimen type. */
  datatype NamedRecord = NamedRecord(id: int, name: Option<string>, description: Option<string>)

  /** A component definition of a test. */
  datatype ComponentRecord = ComponentRecord(id: int, name: Option<string>, units: Option<string>,
                                             lowerLimit: Option<string>, upperLimit: Option<string>,
                                             code: Option<string>)

  /** The test form (`formData`); the price is kept as the text typed into it. */
  datatype TestForm = TestForm(name: string, description: string, category: string, specimen: string,
                               service: string, testPrice: string, testCode: string, machine: string,
                               printReferenceRanges: bool)

  datatype ComponentForm = ComponentForm(name: string, units: string, lowerLimit: string,
                                         upperLimit: string, code: string)

  datatype TestPayload = TestPayload(name: string, description: string, category: string,
                                     specimen: string, service: string, testPrice: nat,
                                     testCode: string, machine: string, printReferenceRanges: bool)

  datatype ComponentPayload = ComponentPayload(parentTestId: int, name: string, units: string,
                                               lowerLimit: string, upperLimit: string, code: string)

  /** The write a save hands to the store: an insert, or an update of the row with the given id,
      made from the form as it stood. */
  datatype TestWrite = InsertTest(form: TestForm) | UpdateTest(id: int, form: TestForm)
  {
    /** The row the write sends. */
    function Payload(): TestPayload {
      TestPayloadOf(form)
    }
  }

  datatype ComponentWrite = InsertComponent(parentTestId: int, form: ComponentForm)
                          | UpdateComponent(componentId: int, parentTestId: int, form: ComponentForm)
  {
    function Payload(): ComponentPayload {
      ComponentPayloadOf(parentTestId, form)
    }
  }

  const InitialForm := TestForm("", "", "", "", "", "0", "", "None", false)
  const EmptyComponentForm := ComponentForm("", "", "", "", "")
  const NameRequiredAlert := "Validation Error: 'Name' is required."
  const ComponentNameRequiredAlert := "Component Name is required."
  const SaveFailedPrefix := "Operation Failed: "
  const ComponentSaveFailedPrefix := "Component Save Failed: "
  const UnknownTestName := "Unknown"

  // ---------------------------------------------------------------------------------------------
  // Search

  /** A test survives the search when its name or its service, a missing one read as "",
      contains the query, ignoring case. */
  predicate TestMatches(t: LabTestRecord, query: string) {
    ContainsIgnoringCase(OrText(t.name, ""), query) || ContainsIgnoringCase(OrText(t.service, ""), query)
  }

  /** `filteredTests`. */
  function FilteredTests(tests: seq<LabTestRecord>, query: string): (r: seq<LabTestRecord>)
    ensures forall t :: t in r <==> t in tests && TestMatches(t, query)
    ensures forall t :: multiset(r)[t] == if TestMatches(t, query) then multiset(tests)[t] else 0
    ensures IsSubsequence(r, tests)
  {
    var keep := (t: LabTestRecord) => TestMatches(t, query);
    FilterCounts(tests, keep);
    FilterIsSubsequence(tests, keep);
    Filter(tests, keep)
  }

  /** An empty query keeps every test, whatever fields it lacks. */
  lemma EmptyQueryKeepsAllTests(tests: seq<LabTestRecord>)
    ensures FilteredTests(tests, "") == tests
  {
    forall k | 0 <= k < |tests| ensures TestMatches(tests[k], "") {
      EmptyTermMatchesEverything(OrText(tests[k].name, ""));
    }
    FilterKeepsAll(tests, (t: LabTestRecord) => TestMatches(t, ""));
  }

  predicate NameMatches(c: NamedRecord, query: string) {
    ContainsIgnoringCase(OrText(c.name, ""), query)
  }

  /** `filteredCategories` and `filteredSpecimens`: the same name-only search over either list. */
  function FilterByName(records: seq<NamedRecord>, query: string): (r: seq<NamedRecord>)
    ensures forall c :: c in r <==> c in records && NameMatches(c, query)
    ensures forall c :: multiset(r)[c] == if NameMatches(c, query) then multiset(records)[c] else 0
    ensures IsSubsequence(r, records)
  {
    var keep := (c: NamedRecord) => NameMatches(c, query);
    FilterCounts(records, keep);
    FilterIsSubsequence(records, keep);
    Filter(records, keep)
  }

  lemma EmptyQueryKeepsAllNamed(records: seq<NamedRecord>)
    ensures FilterByName(records, "") == records
  {
    forall k | 0 <= k < |records| ensures NameMatches(records[k], "") {
      EmptyTermMatchesEverything(OrText(records[k].name, ""));
    }
    FilterKeepsAll(records, (c: NamedRecord) => NameMatches(c, ""));
  }

  /** The heading of the component and panel dialogs: the name of the first test whose id is the
      edited one, or "Unknown" when there is none or its name is empty. */
  function SelectedTestName(tests: seq<LabTestRecord>, editingId: Option<int>): (r: string)
    ensures (editingId.None? || forall k :: 0 <= k < |tests| ==> tests[k].id != editingId.value) ==> r == UnknownTestName
    ensures forall k :: 0 <= k < |tests| && editingId == Some(tests[k].id)
                        && (forall j :: 0 <= j < k ==> tests[j].id != tests[k].id)
                        ==> r == OrText(tests[k].name, UnknownTestName)
  {
    var found := Find(tests, (t: LabTestRecord) => Some(t.id) == editingId);
    if found.Some? then OrText(found.value.name, UnknownTestName) else UnknownTestName
  }

  /** The tests offered as panel members: every configured test but the one being edited. */
  function PanelCandidates(tests: seq<LabTestRecord>, editingId: Option<int>): (r: seq<LabTestRecord>)
    ensures forall t :: t in r <==> t in tests && editingId != Some(t.id)
    ensures forall t :: multiset(r)[t] == if editingId != Some(t.id) then multiset(tests)[t] else 0
    ensures IsSubsequence(r, tests)
    ensures editingId.None? ==> r == tests
  {
    var keep := (t: LabTestRecord) => editingId != Some(t.id);
    FilterCounts(tests, keep);
    FilterIsSubsequence(tests, keep);
    if editingId.None? then
      FilterKeepsAll(tests, keep);
      Filter(tests, keep)
    else
      Filter(tests, keep)
  }

  // ---------------------------------------------------------------------------------------------
  // Forms and payloads

  /** The form a double-click loads: text fields default to "", the price to "0", the machine to
      "None" and the reference-range flag to false. */
  function FormOf(t: LabTestRecord): TestForm {
    TestForm(OrText(t.name, ""), OrText(t.description, ""), OrText(t.category, ""),
             OrText(t.specimen, ""), OrText(t.service, ""),
             if t.testPrice.Some? then NatToDecimal(t.testPrice.value) else "0",
             OrText(t.testCode, ""), OrText(t.machine, "None"), t.printReferenceRanges.GetOr(false))
  }

  function ComponentFormOf(c: ComponentRecord): ComponentForm {
    ComponentForm(OrText(c.name, ""), OrText(c.units, ""), OrText(c.lowerLimit, ""),
                  OrText(c.upperLimit, ""), OrText(c.code, ""))
  }

  /** The saved payload: name, description and code trimmed, the price text parsed. */
  function TestPayloadOf(f: TestForm): TestPayload {
    TestPayload(Trim(f.name), Trim(f.description), f.category, f.specimen, f.service,
                ParsePrice(f.testPrice), Trim(f.testCode), f.machine, f.printReferenceRanges)
  }

  /** The component payload: every text field trimmed, linked to the edited test. */
  function ComponentPayloadOf(parentTestId: int, f: ComponentForm): ComponentPayload {
    ComponentPayload(parentTestId, Trim(f.name), Trim(f.units), Trim(f.lowerLimit),
                     Trim(f.upperLimit), Trim(f.code))
  }

  /** Loading a record into the form and saving it unchanged writes back the record's values, with
      missing fields at their defaults and the text fields trimmed. */
  lemma EditRoundTrip(t: LabTestRecord)
    ensures var p := TestPayloadOf(FormOf(t));
            && p.name == Trim(OrText(t.name, "")) && p.testCode == Trim(OrText(t.testCode, ""))
            && p.description == Trim(OrText(t.description, ""))
            && p.category == OrText(t.category, "") && p.specimen == OrText(t.specimen, "")
            && p.service == OrText(t.service, "")
            && p.testPrice == t.testPrice.GetOr(0)
            && p.machine == OrText(t.machine, "None")
            && p.printReferenceRanges == t.printReferenceRanges.GetOr(false)
  {
    if t.testPrice.Some? {
      ParsePriceRoundTrip(t.testPrice.value);
    } else {
      ParsePriceRoundTrip(0);
    }
  }

  /** The row the store holds after a test write with payload `p`. */
  function StoredTest(id: int, p: TestPayload): LabTestRecord {
    LabTestRecord(id, Some(p.name), Some(p.description), Some(p.category), Some(p.specimen),
                  Some(p.service), Some(p.testPrice), Some(p.testCode), Some(p.machine),
                  Some(p.printReferenceRanges))
  }

  /** Double-clicking a stored row loads the written values back, the price rendered as text and an
      empty machine as "None". */
  lemma ReloadTestForm(id: int, p: TestPayload)
    ensures FormOf(StoredTest(id, p))
            == TestForm(p.name, p.description, p.category, p.specimen, p.service,
                        NatToDecimal(p.testPrice), p.testCode,
                        if p.machine == "" then "None" else p.machine, p.printReferenceRanges)
  {
  }

  /** Saving the form loaded back from a saved payload writes the trimmed fields and the price
      unchanged. */
  lemma ResaveTestForm(f: TestForm, machine: string)
    ensures var p := TestPayloadOf(f);
            var q := TestPayloadOf(TestForm(p.name, p.description, p.category, p.specimen, p.service,
                                            NatToDecimal(p.testPrice), p.testCode, machine,
                                            p.printReferenceRanges));
            q == p.(machine := machine)
  {
    var p := TestPayloadOf(f);
    TrimIdempotent(f.name);
    TrimIdempotent(f.description);
    TrimIdempotent(f.testCode);
    ParsePriceRoundTrip(p.testPrice);
  }

  /** A saved test, read back and saved again unchanged, is written exactly as before, except that
      an empty machine comes back as "None". */
  lemma TestResaveUnchanged(id: int, f: TestForm)
    ensures var p := TestPayloadOf(f);
            TestPayloadOf(FormOf(StoredTest(id, p)))
              == p.(machine := if p.machine == "" then "None" else p.machine)
  {
    var p := TestPayloadOf(f);
    ReloadTestForm(id, p);
    ResaveTestForm(f, if p.machine == "" then "None" else p.machine);
  }

  /** Loading a component into its form and saving it unchanged writes back the component's
      values, missing ones as "", trimmed, under the edited test. */
  lemma ComponentEditRoundTrip(parentTestId: int, c: ComponentRecord)
    ensures var p := ComponentPayloadOf(parentTestId, ComponentFormOf(c));
            && p.parentTestId == parentTestId
            && p.name == Trim(OrText(c.name, "")) && p.units == Trim(OrText(c.units, ""))
            && p.lowerLimit == Trim(OrText(c.lowerLimit, ""))
            && p.upperLimit == Trim(OrText(c.upperLimit, "")) && p.code == Trim(OrText(c.code, ""))
  {
  }

  /** Reading a trimmed text back from the store and trimming it again leaves it as it was. */
  lemma ReloadKeepsTrimmed(x: string)
    ensures Trim(OrText(Some(Trim(x)), "")) == Trim(x)
  {
    TrimIdempotent(x);
  }

  /** The row the store holds after a component write with payload `p`. */
  function StoredComponent(componentId: int, p: ComponentPayload): ComponentRecord {
    ComponentRecord(componentId, Some(p.name), Some(p.units), Some(p.lowerLimit), Some(p.upperLimit),
                    Some(p.code))
  }

  /** A saved component, read back and saved again unchanged, is written exactly as before. */
  lemma ComponentResaveUnchanged(parentTestId: int, componentId: int, f: ComponentForm)
    ensures var p := ComponentPayloadOf(parentTestId, f);
            ComponentPayloadOf(parentTestId, ComponentFormOf(StoredComponent(componentId, p))) == p
  {
    var p := ComponentPayloadOf(parentTestId, f);
    assert ComponentFormOf(StoredComponent(componentId, p))
           == ComponentForm(p.name, p.units, p.lowerLimit, p.upperLimit, p.code);
    ReloadKeepsTrimmed(f.name);
    ReloadKeepsTrimmed(f.units);
    ReloadKeepsTrimmed(f.lowerLimit);
    ReloadKeepsTrimmed(f.upperLimit);
    ReloadKeepsTrimmed(f.code);
  }

  /** The save guard tests the untrimmed name: a name passes it and is written empty exactly when
      it is non-empty whitespace. */
  lemma BlankNamePassesGuard(f: TestForm)
    ensures f.name != "" && TestPayloadOf(f).name == "" <==> |f.name| > 0 && AllWhitespace(f.name)
  {
    TrimEmptyIff(f.name);
  }

  /** The component guard has the same gap: a whitespace name passes it and is written empty. */
  lemma BlankComponentNamePassesGuard(parentTestId: int, f: ComponentForm)
    ensures f.name != "" && ComponentPayloadOf(parentTestId, f).name == ""
            <==> |f.name| > 0 && AllWhitespace(f.name)
  {
    TrimEmptyIff(f.name);
  }

  // ---------------------------------------------------------------------------------------------
  // The screen's state

  class LabTestsScreen {
    var configuredTests: seq<LabTestRecord>
    var categories: seq<NamedRecord>
    var specimens: seq<NamedRecord>
    var components: seq<ComponentRecord>
    var editingId: Option<int>
    var formData: TestForm
    var componentFormData: ComponentForm
    var editingComponentId: Option<int>
    var showSuccess: bool

    /** The screen after mounting, with its three lists loaded from the store's answers; a failed
        load leaves its list empty. */
    constructor (tests: Fetch<LabTestRecord>, cats: Fetch<NamedRecord>, specs: Fetch<NamedRecord>)
      ensures configuredTests == RowsOrEmpty(tests) && categories == RowsOrEmpty(cats)
      ensures specimens == RowsOrEmpty(specs) && components == []
      ensures editingId.None? && formData == InitialForm
      ensures componentFormData == EmptyComponentForm && editingComponentId.None? && !showSuccess
    {
      configuredTests, categories, specimens := RowsOrEmpty(tests), RowsOrEmpty(cats), RowsOrEmpty(specs);
      components := [];
      editingId, formData := None, InitialForm;
      componentFormData, editingComponentId := EmptyComponentForm, None;
      showSuccess := false;
    }

    /** The save button of the test form. The store's answer to the write and to the list re-read
        that follows it are inputs; the alert raised and the write made are outputs. */
    method Save(write: StoreResult, reread: Fetch<LabTestRecord>) returns (alert: Option<string>, request: Option<TestWrite>)
      modifies this
      ensures old(formData).name == "" ==> alert == Some(NameRequiredAlert) && request.None? && unchanged(this)
      ensures old(formData).name != "" ==>
                request == Some(if IsSet(old(editingId)) then UpdateTest(old(editingId).value, old(formData))
                                else InsertTest(old(formData)))
      ensures old(formData).name != "" && write.Failed? ==>
                alert == Some(SaveFailedPrefix + write.message) && unchanged(this)
      ensures old(formData).name != "" && write.Ok? ==>
                && alert.None? && formData == InitialForm && editingId.None?
                && configuredTests == Refreshed(old(configuredTests), reread) && showSuccess
                && categories == old(categories) && specimens == old(specimens) && components == old(components)
                && componentFormData == old(componentFormData) && editingComponentId == old(editingComponentId)
    {
      if formData.name == "" {
        return Some(NameRequiredAlert), None;
      }
      request := Some(if IsSet(editingId) then UpdateTest(editingId.value, formData) else InsertTest(formData));
      if write.Failed? {
        return Some(SaveFailedPrefix + write.message), request;
      }
      formData := InitialForm;
      editingId := None;
      configuredTests := Refreshed(configuredTests, reread);
      showSuccess := true;
      alert := None;
    }

    /** The save button of the component form. */
    method SaveComponent(write: StoreResult, reread: Fetch<ComponentRecord>)
      returns (alert: Option<string>, request: Option<ComponentWrite>)
      modifies this
      ensures !IsSet(old(editingId)) ==> alert.None? && request.None? && unchanged(this)
      ensures IsSet(old(editingId)) && old(componentFormData).name == "" ==>
                alert == Some(ComponentNameRequiredAlert) && request.None? && unchanged(this)
      ensures IsSet(old(editingId)) && old(componentFormData).name != "" ==>
                var parent := old(editingId).value;
                request == Some(if IsSet(old(editingComponentId))
                                then UpdateComponent(old(editingComponentId).value, parent, old(componentFormData))
                                else InsertComponent(parent, old(componentFormData)))
      ensures IsSet(old(editingId)) && old(componentFormData).name != "" && write.Failed? ==>
                alert == Some(ComponentSaveFailedPrefix + write.message) && unchanged(this)
      ensures IsSet(old(editingId)) && old(componentFormData).name != "" && write.Ok? ==>
                && alert.None? && componentFormData == EmptyComponentForm && editingComponentId.None?
                && components == Refreshed(old(components), reread) && showSuccess
                && editingId == old(editingId) && formData == old(formData)
                && configuredTests == old(configuredTests)
                && categories == old(categories) && specimens == old(specimens)
    {
      if !IsSet(editingId) {
        return None, None;
      }
      if componentFormData.name == "" {
        return Some(ComponentNameRequiredAlert), None;
      }
      request := Some(if IsSet(editingComponentId)
                      then UpdateComponent(editingComponentId.value, editingId.value, componentFormData)
                      else InsertComponent(editingId.value, componentFormData));
      if write.Failed? {
        return Some(ComponentSaveFailedPrefix + write.message), request;
      }
      componentFormData := EmptyComponentForm;
      editingComponentId := None;
      components := Refreshed(components, reread);
      showSuccess := true;
      alert := None;
    }

    /** Double-clicking a test row loads it into the form for editing. */
    method DoubleClick(t: LabTestRecord)
      modifies this`formData, this`editingId
      ensures formData == FormOf(t) && editingId == Some(t.id)
    {
      formData := FormOf(t);
      editingId := Some(t.id);
    }

    /** Double-clicking a component row loads it into the component form. */
    method DoubleClickComponent(c: ComponentRecord)
      modifies this`componentFormData, this`editingComponentId
      ensures componentFormData == ComponentFormOf(c) && editingComponentId == Some(c.id)
    {
      componentFormData := ComponentFormOf(c);
      editingComponentId := Some(c.id);
    }
  }
}
