/** The service catalogue screen: the filtered query, the client-side search, the service form with
    its save, the double-click that loads a row, the context-menu delete and the input-items
    button. */
module Services {
  import opened Wrappers
  import opened Store
  import opened Seqs
  import opened Text

  /** A `config_services` row; every field may be null. */
  datatype ServiceRecord = ServiceRecord(id: Option<int>, name: Option<string>, itemCategory: Option<string>,
                                         itemCode: Option<string>, rate: Option<nat>,
                                         incomeSubaccount: Option<string>, itemClass: Option<string>,
                                         expenseSubaccount: Option<string>, vatType: Option<string>,
                                         otherTax: Option<string>, isProcedure: Option<bool>,
                                         isExamination: Option<bool>, isTheatreOperation: Option<bool>,
                                         isActive: Option<bool>)

  /** The service form; the rate is kept as the text typed into it. */
  datatype ServiceForm = ServiceForm(name: string, itemCategory: string, itemCode: string, rate: string,
                                     incomeSubaccount: string, itemClass: string, expenseSubaccount: string,
                                     vatType: string, otherTax: string, isProcedure: bool,
                                     isExamination: bool, isTheatreOperation: bool, isActive: bool)

  /** The row a save sends: the form as typed, with the rate parsed. */
  datatype ServicePayload = ServicePayload(name: string, itemCategory: string, itemCode: string, rate: nat,
                                           incomeSubaccount: string, itemClass: string,
                                           expenseSubaccount: string, vatType: string, otherTax: string,
                                           isProcedure: bool, isExamination: bool,
                                           isTheatreOperation: bool, isActive: bool)

  /** The write a save hands to the store, made from the form as it stood. */
  datatype ServiceWrite = InsertService(form: ServiceForm) | UpdateService(id: int, form: ServiceForm)
  {
    function Payload(): ServicePayload {
      PayloadOf(form)
    }
  }

  datatype Flag = Procedure | Examination | TheatreOperation

  /** A condition the query adds: an equality on `is_active`, a case-insensitive pattern on
      `item_category`, or a flag column equal to true. */
  datatype Condition = ActiveIs(value: bool) | CategoryContains(fragment: string) | FlagIsTrue(flag: Flag)

  const AllServices := "All Services"
  const ActiveOnly := "Active Only"
  const InactiveOnly := "Inactive Only"
  const LabTestOnly := "Lab Test Only"
  const ProceduresOnly := "Procedures Only"
  const RadiologyOnly := "Radiology Examinations Only"
  const TheatreOnly := "Theatre Operations Only"

  const InitialForm := ServiceForm("", "", "", "0", "", "", "", "", "", false, false, false, true)
  const MissingNameNotice := Notice("Warning", "Please enter a service name.", Warning)
  const UpdatedNotice := Notice("Updated", "Service updated successfully!", Success)
  const SavedNotice := Notice("Success", "Service saved successfully!", Success)
  const MissingIdNotice := Notice("Error", "Unable to capture record ID.", Error)
  const DeletedNotice := Notice("Deleted", "Service removed successfully.", Error)
  const NoServiceNotice := Notice("No Service Selected", "Please select a service to manage its input items.", Warning)
  const DeleteFailedPrefix := "Delete failed: "

  // ---------------------------------------------------------------------------------------------
  // The query

  /** The conditions the refresh adds for a filter type, one test per known option. */
  function QueryConditions(filterType: string): (r: seq<Condition>)
    ensures |r| <= 1
    ensures filterType !in {ActiveOnly, InactiveOnly, LabTestOnly, ProceduresOnly, RadiologyOnly, TheatreOnly} ==> r == []
  {
    (if filterType == ActiveOnly then [ActiveIs(true)] else [])
    + (if filterType == InactiveOnly then [ActiveIs(false)] else [])
    + (if filterType == LabTestOnly then [CategoryContains("lab")] else [])
    + (if filterType == ProceduresOnly then [FlagIsTrue(Procedure)] else [])
    + (if filterType == RadiologyOnly then [FlagIsTrue(Examination)] else [])
    + (if filterType == TheatreOnly then [FlagIsTrue(TheatreOperation)] else [])
  }

  function FlagOf(s: ServiceRecord, flag: Flag): Option<bool> {
    match flag
    case Procedure => s.isProcedure
    case Examination => s.isExamination
    case TheatreOperation => s.isTheatreOperation
  }

  /** How the store applies a condition: a null column satisfies none of them. */
  predicate Admits(c: Condition, s: ServiceRecord) {
    match c
    case ActiveIs(v) => s.isActive == Some(v)
    case CategoryContains(fragment) => s.itemCategory.Some? && ContainsIgnoringCase(s.itemCategory.value, fragment)
    case FlagIsTrue(flag) => FlagOf(s, flag) == Some(true)
  }

  predicate AdmittedBy(conditions: seq<Condition>, s: ServiceRecord) {
    forall i :: 0 <= i < |conditions| ==> Admits(conditions[i], s)
  }

  /** What each filter option lets through. */
  lemma FilterTypeMeaning(filterType: string, s: ServiceRecord)
    ensures var admitted := AdmittedBy(QueryConditions(filterType), s);
            && (filterType == ActiveOnly ==> (admitted <==> s.isActive == Some(true)))
            && (filterType == InactiveOnly ==> (admitted <==> s.isActive == Some(false)))
            && (filterType == LabTestOnly ==>
                  (admitted <==> s.itemCategory.Some? && ContainsIgnoringCase(s.itemCategory.value, "lab")))
            && (filterType == ProceduresOnly ==> (admitted <==> s.isProcedure == Some(true)))
            && (filterType == RadiologyOnly ==> (admitted <==> s.isExamination == Some(true)))
            && (filterType == TheatreOnly ==> (admitted <==> s.isTheatreOperation == Some(true)))
            && (filterType !in {ActiveOnly, InactiveOnly, LabTestOnly, ProceduresOnly, RadiologyOnly, TheatreOnly}
                ==> admitted)
  {
    var conditions := QueryConditions(filterType);
    if |conditions| == 1 {
      assert AdmittedBy(conditions, s) <==> Admits(conditions[0], s);
    }
  }

  // ---------------------------------------------------------------------------------------------
  // The search

  /** A service is listed when its name or its item code is present and contains the term,
      ignoring case; a null field never matches, not even the empty term. */
  predicate ServiceMatches(s: ServiceRecord, term: string) {
    (s.name.Some? && ContainsIgnoringCase(s.name.value, term))
    || (s.itemCode.Some? && ContainsIgnoringCase(s.itemCode.value, term))
  }

  /** `filteredServicesList`. */
  function FilteredServices(services: seq<ServiceRecord>, term: string): (r: seq<ServiceRecord>)
    ensures forall s :: s in r <==> s in services && ServiceMatches(s, term)
    ensures forall s :: multiset(r)[s] == if ServiceMatches(s, term) then multiset(services)[s] else 0
    ensures IsSubsequence(r, services)
  {
    var keep := (s: ServiceRecord) => ServiceMatches(s, term);
    FilterCounts(services, keep);
    FilterIsSubsequence(services, keep);
    Filter(services, keep)
  }

  /** With an empty search box the list shows exactly the services that have a name or an item
      code. */
  lemma EmptyTermShowsNamedOrCoded(services: seq<ServiceRecord>)
    ensures forall s :: s in FilteredServices(services, "") <==> s in services && (s.name.Some? || s.itemCode.Some?)
  {
    forall s | s in services && (s.name.Some? || s.itemCode.Some?) ensures ServiceMatches(s, "") {
      if s.name.Some? {
        EmptyTermMatchesEverything(s.name.value);
      } else {
        EmptyTermMatchesEverything(s.itemCode.value);
      }
    }
  }

  // ---------------------------------------------------------------------------------------------
  // Forms and payloads

  /** The payload spreads the form unchanged (nothing is trimmed) and parses the rate, a rate
      that does not parse becoming 0. */
  function PayloadOf(f: ServiceForm): (p: ServicePayload)
    ensures p.rate == ParsePrice(f.rate)
    ensures p.name == f.name && p.itemCategory == f.itemCategory && p.itemCode == f.itemCode
    ensures p.incomeSubaccount == f.incomeSubaccount && p.itemClass == f.itemClass
            && p.expenseSubaccount == f.expenseSubaccount && p.vatType == f.vatType
            && p.otherTax == f.otherTax
    ensures p.isProcedure == f.isProcedure && p.isExamination == f.isExamination
            && p.isTheatreOperation == f.isTheatreOperation && p.isActive == f.isActive
  {
    ServicePayload(f.name, f.itemCategory, f.itemCode, ParsePrice(f.rate), f.incomeSubaccount,
                   f.itemClass, f.expenseSubaccount, f.vatType, f.otherTax, f.isProcedure,
                   f.isExamination, f.isTheatreOperation, f.isActive)
  }

  /** The form a double-click loads: text fields default to "", the rate to "0", the three type
      flags to false and the active flag to true. */
  function FormOf(s: ServiceRecord): ServiceForm {
    ServiceForm(OrText(s.name, ""), OrText(s.itemCategory, ""), OrText(s.itemCode, ""),
                if s.rate.Some? then NatToDecimal(s.rate.value) else "0",
                OrText(s.incomeSubaccount, ""), OrText(s.itemClass, ""), OrText(s.expenseSubaccount, ""),
                OrText(s.vatType, ""), OrText(s.otherTax, ""), s.isProcedure.GetOr(false),
                s.isExamination.GetOr(false), s.isTheatreOperation.GetOr(false), s.isActive.GetOr(true))
  }

  /** Loading a row into the form and saving it unchanged writes back the row's own values, with
      missing fields at their defaults. */
  lemma EditRoundTrip(s: ServiceRecord)
    ensures var p := PayloadOf(FormOf(s));
            && p.name == OrText(s.name, "") && p.itemCategory == OrText(s.itemCategory, "")
            && p.itemCode == OrText(s.itemCode, "") && p.vatType == OrText(s.vatType, "")
            && p.incomeSubaccount == OrText(s.incomeSubaccount, "")
            && p.itemClass == OrText(s.itemClass, "")
            && p.expenseSubaccount == OrText(s.expenseSubaccount, "")
            && p.otherTax == OrText(s.otherTax, "")
            && p.rate == s.rate.GetOr(0)
            && p.isProcedure == s.isProcedure.GetOr(false) && p.isExamination == s.isExamination.GetOr(false)
            && p.isTheatreOperation == s.isTheatreOperation.GetOr(false)
            && p.isActive == s.isActive.GetOr(true)
  {
    if s.rate.Some? {
      ParsePriceRoundTrip(s.rate.value);
    } else {
      ParsePriceRoundTrip(0);
    }
  }

  /** The row the store holds after a service write with payload `p`. */
  function StoredService(id: Option<int>, p: ServicePayload): ServiceRecord {
    ServiceRecord(id, Some(p.name), Some(p.itemCategory), Some(p.itemCode), Some(p.rate),
                  Some(p.incomeSubaccount), Some(p.itemClass), Some(p.expenseSubaccount),
                  Some(p.vatType), Some(p.otherTax), Some(p.isProcedure), Some(p.isExamination),
                  Some(p.isTheatreOperation), Some(p.isActive))
  }

  /** Double-clicking a stored row loads the written values back, the rate rendered as text. */
  lemma ReloadServiceForm(id: Option<int>, p: ServicePayload)
    ensures FormOf(StoredService(id, p))
            == ServiceForm(p.name, p.itemCategory, p.itemCode, NatToDecimal(p.rate),
                           p.incomeSubaccount, p.itemClass, p.expenseSubaccount, p.vatType,
                           p.otherTax, p.isProcedure, p.isExamination, p.isTheatreOperation,
                           p.isActive)
  {
  }

  /** A saved service, read back and saved again unchanged, is written exactly as before. */
  lemma ResaveUnchanged(id: Option<int>, f: ServiceForm)
    ensures PayloadOf(FormOf(StoredService(id, PayloadOf(f)))) == PayloadOf(f)
  {
    var p := PayloadOf(f);
    ReloadServiceForm(id, p);
    ParsePriceRoundTrip(p.rate);
  }

  /** The rows left after a delete: every row whose id is not the deleted one, in order. */
  function WithoutId(services: seq<ServiceRecord>, target: int): (r: seq<ServiceRecord>)
    ensures forall s :: s in r <==> s in services && s.id != Some(target)
    ensures forall s :: multiset(r)[s] == if s.id != Some(target) then multiset(services)[s] else 0
    ensures IsSubsequence(r, services)
    ensures (forall k :: 0 <= k < |services| ==> services[k].id != Some(target)) ==> r == services
  {
    var keep := (s: ServiceRecord) => s.id != Some(target);
    FilterCounts(services, keep);
    FilterIsSubsequence(services, keep);
    if forall k :: 0 <= k < |services| ==> keep(services[k]) then
      FilterKeepsAll(services, keep);
      Filter(services, keep)
    else
      Filter(services, keep)
  }

  // ---------------------------------------------------------------------------------------------
  // The screen's state

  class ServicesScreen {
    var services: seq<ServiceRecord>
    var editingId: Option<int>
    var filterType: string
    var formData: ServiceForm
    var notice: Option<Notice>
    var contextTarget: Option<int>
    var inputModalOpen: bool

    /** The screen after mounting: no rows are loaded until the filter button is pressed. */
    constructor ()
      ensures services == [] && editingId.None? && filterType == AllServices && formData == InitialForm
      ensures notice.None? && contextTarget.None? && !inputModalOpen
    {
      services, editingId, filterType, formData := [], None, AllServices, InitialForm;
      notice, contextTarget, inputModalOpen := None, None, false;
    }

    /** Choosing an option in the filter box; the list is re-queried only by the filter button. */
    method ChooseFilter(option: string)
      modifies this`filterType
      ensures filterType == option
    {
      filterType := option;
    }

    /** The filter button: the conditions sent for the current filter type, and the list replaced
        by the answer unless the query failed. */
    method Refresh(answer: Fetch<ServiceRecord>) returns (query: seq<Condition>)
      modifies this`services
      ensures query == QueryConditions(filterType)
      ensures services == Refreshed(old(services), answer)
    {
      query := QueryConditions(filterType);
      services := Refreshed(services, answer);
    }

    /** The save button. `write` is the store's answer to the insert or update and `answer` its
        answer to the re-query that follows a successful update. */
    method Save(write: StoreResult, answer: Fetch<ServiceRecord>) returns (request: Option<ServiceWrite>)
      modifies this`services, this`editingId, this`formData, this`notice
      ensures old(formData).name == "" ==>
                && request.None? && notice == Some(MissingNameNotice)
                && services == old(services) && editingId == old(editingId) && formData == old(formData)
      ensures old(formData).name != "" ==>
                request == Some(if IsSet(old(editingId)) then UpdateService(old(editingId).value, old(formData))
                                else InsertService(old(formData)))
      ensures old(formData).name != "" && write.Failed? ==>
                && notice == Some(Notice("Operation Failed", write.message, Error))
                && services == old(services) && editingId == old(editingId) && formData == old(formData)
      ensures old(formData).name != "" && write.Ok? ==>
                && formData == InitialForm && editingId.None?
                && notice == Some(if IsSet(old(editingId)) then UpdatedNotice else SavedNotice)
                && services == (if IsSet(old(editingId)) then Refreshed(old(services), answer) else old(services))
    {
      if formData.name == "" {
        notice := Some(MissingNameNotice);
        return None;
      }
      request := Some(if IsSet(editingId) then UpdateService(editingId.value, formData) else InsertService(formData));
      if write.Failed? {
        notice := Some(Notice("Operation Failed", write.message, Error));
        return;
      }
      if IsSet(editingId) {
        notice := Some(UpdatedNotice);
        services := Refreshed(services, answer);
      } else {
        notice := Some(SavedNotice);
      }
      formData := InitialForm;
      editingId := None;
    }

    /** Double-clicking a row: a row without a truthy id raises an error notice, any other is
        loaded into the form for editing. */
    method DoubleClick(s: ServiceRecord)
      modifies this`formData, this`editingId, this`notice
      ensures !IsSet(s.id) ==>
                notice == Some(MissingIdNotice) && formData == old(formData) && editingId == old(editingId)
      ensures IsSet(s.id) ==> formData == FormOf(s) && editingId == s.id && notice == old(notice)
    {
      if !IsSet(s.id) {
        notice := Some(MissingIdNotice);
        return;
      }
      formData := FormOf(s);
      editingId := s.id;
    }

    /** Right-clicking a row opens the context menu on that row's id. */
    method OpenContextMenu(id: Option<int>)
      modifies this`contextTarget
      ensures contextTarget == id
    {
      contextTarget := id;
    }

    /** The document's mouse-down listener as written: a press anywhere, the menu's own items
        included, closes the context menu. */
    method CloseContextMenu()
      modifies this`contextTarget
      ensures contextTarget.None?
    {
      contextTarget := None;
    }

    /** The mouse-down listener as intended: a press outside the menu closes it, a press on one of
        its items keeps it open for the click that follows. */
    method MouseDown(insideMenu: bool)
      modifies this`contextTarget
      ensures insideMenu ==> contextTarget == old(contextTarget)
      ensures !insideMenu ==> contextTarget.None?
    {
      if !insideMenu {
        contextTarget := None;
      }
    }

    /** The context menu's delete. `confirmed` is the user's answer to the confirmation dialog and
        `write` the store's answer to the delete; the returned id is the one deleted. */
    method Delete(confirmed: bool, write: StoreResult) returns (alert: Option<string>, request: Option<int>)
      modifies this`services, this`notice
      ensures !IsSet(contextTarget) || !confirmed ==>
                alert.None? && request.None? && services == old(services) && notice == old(notice)
      ensures IsSet(contextTarget) && confirmed ==> request == contextTarget
      ensures IsSet(contextTarget) && confirmed && write.Failed? ==>
                alert == Some(DeleteFailedPrefix + write.message) && services == old(services) && notice == old(notice)
      ensures IsSet(contextTarget) && confirmed && write.Ok? ==>
                alert.None? && services == WithoutId(old(services), contextTarget.value) && notice == Some(DeletedNotice)
    {
      if !IsSet(contextTarget) || !confirmed {
        return None, None;
      }
      request := contextTarget;
      if write.Failed? {
        return Some(DeleteFailedPrefix + write.message), request;
      }
      services := WithoutId(services, contextTarget.value);
      notice := Some(DeletedNotice);
      alert := None;
    }

    /** Clicking the menu's delete item with the listener as written: the press closes the menu
        before the click, so nothing is ever deleted this way, whatever the user confirms and the
        store answers. */
    method ClickMenuDeleteAsWritten(confirmed: bool, write: StoreResult)
      returns (alert: Option<string>, request: Option<int>)
      modifies this`services, this`notice, this`contextTarget
      ensures alert.None? && request.None? && contextTarget.None?
      ensures services == old(services) && notice == old(notice)
    {
      CloseContextMenu();
      alert, request := Delete(confirmed, write);
    }

    /** Clicking the menu's delete item with the intended listener: the press keeps the menu, and
        the delete acts on the row the menu was opened on. */
    method ClickMenuDelete(confirmed: bool, write: StoreResult)
      returns (alert: Option<string>, request: Option<int>)
      modifies this`services, this`notice, this`contextTarget
      ensures contextTarget == old(contextTarget)
      ensures !IsSet(old(contextTarget)) || !confirmed ==>
                alert.None? && request.None? && services == old(services) && notice == old(notice)
      ensures IsSet(old(contextTarget)) && confirmed ==> request == old(contextTarget)
      ensures IsSet(old(contextTarget)) && confirmed && write.Failed? ==>
                alert == Some(DeleteFailedPrefix + write.message) && services == old(services)
                && notice == old(notice)
      ensures IsSet(old(contextTarget)) && confirmed && write.Ok? ==>
                alert.None? && services == WithoutId(old(services), old(contextTarget).value)
                && notice == Some(DeletedNotice)
    {
      MouseDown(true);
      alert, request := Delete(confirmed, write);
    }

    /** The input-items button: opens the input-items dialog for the edited service, or warns
        when none is being edited. */
    method OpenInputItems()
      modifies this`inputModalOpen, this`notice
      ensures !IsSet(editingId) ==> notice == Some(NoServiceNotice) && inputModalOpen == old(inputModalOpen)
      ensures IsSet(editingId) ==> inputModalOpen && notice == old(notice)
    {
      if !IsSet(editingId) {
        notice := Some(NoServiceNotice);
        return;
      }
      inputModalOpen := true;
    }
  }
}
