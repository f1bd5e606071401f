/**
 * The entry form (components/AddTransaction.tsx): its defaults when it opens
 * on a new entry or on an existing record, the merge of a receipt-scan
 * result, the reset when the slip preview is cleared, and the record it
 * builds on submit. The form's state is both a class with one field per
 * piece of component state and, for the lemmas, a `FormState` value.
 */
module AddTransaction {
  import opened Types

  /** The categories the form offers; a scanned category outside them is ignored. */
  const Categories: seq<string> := ["Food", "Transport", "Office", "Utilities", "Entertainment", "Other"]

  /** The form fields. The amount text is kept as the number it parses to,
      None while the field is empty. */
  datatype FormState = FormState(
    merchant: string,
    amount: Option<real>,
    date: Date,
    kind: TxType,
    ownership: Ownership,
    selectedGroupId: string,
    category: string,
    items: seq<string>,
    scanPreview: Option<string>)

  /** `groups[0]?.id || ''`. */
  function FirstGroupId(groups: seq<Group>): string {
    if |groups| > 0 then groups[0].id else ""
  }

  /** The initial field values: those of the record being edited, where it
      has them, else the defaults of a new entry. */
  function InitialState(groups: seq<Group>, initialData: Option<Transaction>, today: Date): (st: FormState)
    ensures initialData.None? ==>
      st == FormState("", None, today, Expense, Personal, FirstGroupId(groups), "Other", [], None)
    ensures initialData.Some? ==>
      var t := initialData.value;
      st.merchant == t.merchant && st.amount == Some(t.amount) && st.date == t.date
      && st.kind == t.kind && st.ownership == t.ownership
      && st.selectedGroupId == OrElse(t.groupId, FirstGroupId(groups))
      && st.category == OrElse(t.category, "Other")
      && st.items == (if t.items.Some? then t.items.value else [])
      && st.scanPreview == (if Truthy(t.slipUrl) then t.slipUrl else None)
  {
    match initialData
    case None =>
      FormState("", None, today, Expense, Personal, FirstGroupId(groups), "Other", [], None)
    case Some(t) =>
      FormState(
        t.merchant,
        Some(t.amount),
        t.date,
        t.kind,
        t.ownership,
        OrElse(t.groupId, FirstGroupId(groups)),
        OrElse(t.category, "Other"),
        if t.items.Some? then t.items.value else [],
        if Truthy(t.slipUrl) then t.slipUrl else None)
  }

  /** A successful scan: merchant, amount, date and items are overwritten,
      the type becomes expense, and the category is adopted only when it is
      one the form offers. */
  function MergeScan(st: FormState, result: ScanResult): (r: FormState)
    ensures r.merchant == result.merchant && r.amount == Some(result.amount)
    ensures r.date == result.date && r.items == result.items && r.kind == Expense
    ensures r.category == (if result.category in Categories then result.category else st.category)
    ensures r.ownership == st.ownership && r.selectedGroupId == st.selectedGroupId
    ensures r.scanPreview == st.scanPreview
  {
    st.(merchant := result.merchant,
        amount := Some(result.amount),
        date := result.date,
        items := result.items,
        kind := Expense,
        category := if result.category in Categories then result.category else st.category)
  }

  /** How a scan reaches the form. The scanner service catches its own
      failures and answers with a placeholder record, so those arrive as
      `Scanned`. An answer without an amount makes `result.amount.toString()`
      throw, after the merchant has already been set from it. */
  datatype ScanOutcome = Scanned(result: ScanResult) | AmountMissing(merchant: string)

  /** The form after a scan answer without an amount: only the merchant was
      overwritten before the error was caught. */
  function MerchantOnly(st: FormState, merchant: string): (r: FormState)
    ensures r.merchant == merchant
    ensures r.amount == st.amount && r.date == st.date && r.kind == st.kind
    ensures r.ownership == st.ownership && r.selectedGroupId == st.selectedGroupId
    ensures r.category == st.category && r.items == st.items && r.scanPreview == st.scanPreview
  {
    st.(merchant := merchant)
  }

  /** The scanner's placeholder answer when it fails (`today` is the clock's date). */
  function FallbackScan(today: Date): ScanResult {
    ScanResult("Error Scanning", 0.0, today, "Other", [])
  }

  /** The clear button on the preview: merchant, amount and items are emptied
      along with the preview; every other field is kept. */
  function ClearPreview(st: FormState): (r: FormState)
    ensures r.scanPreview == None && r.merchant == "" && r.amount == None && r.items == []
    ensures r.date == st.date && r.kind == st.kind && r.ownership == st.ownership
    ensures r.selectedGroupId == st.selectedGroupId && r.category == st.category
  {
    st.(scanPreview := None, merchant := "", amount := None, items := [])
  }

  /** handleSubmit: nothing when the merchant or the amount is empty,
      otherwise the record the form describes. An edited record keeps its id
      (a new one gets `freshId`, the clock reading), the group id is set
      exactly for group-owned records, the slip is kept exactly when a
      preview is shown, and there is no note field. */
  function Submitted(st: FormState, initialData: Option<Transaction>, freshId: string): (r: Option<Transaction>)
    ensures r.None? <==> st.merchant == "" || st.amount.None?
    ensures r.Some? ==>
      var t := r.value;
      t.id == (if initialData.Some? && initialData.value.id != "" then initialData.value.id else freshId)
      && t.merchant == st.merchant && t.amount == st.amount.value && t.date == st.date
      && t.kind == st.kind && t.ownership == st.ownership
      && (t.groupId.Some? <==> st.ownership == GroupOwned)
      && (t.groupId.Some? ==> t.groupId.value == st.selectedGroupId)
      && t.category == Some(st.category) && t.items == Some(st.items) && t.note == None
      && (t.slipUrl.Some? <==> Truthy(st.scanPreview))
      && (t.slipUrl.Some? ==> t.slipUrl == st.scanPreview)
  {
    if st.merchant == "" || st.amount.None? then None
    else
      Some(Transaction(
        id := if initialData.Some? then OrElse(Some(initialData.value.id), freshId) else freshId,
        date := st.date,
        merchant := st.merchant,
        amount := st.amount.value,
        kind := st.kind,
        ownership := st.ownership,
        groupId := if st.ownership == GroupOwned then Some(st.selectedGroupId) else None,
        category := Some(st.category),
        items := Some(st.items),
        note := None,
        slipUrl := if Truthy(st.scanPreview) then st.scanPreview else None))
  }

  /** A new entry cannot be submitted before a merchant and an amount are filled in. */
  lemma NewEntryIsIncomplete(groups: seq<Group>, today: Date, freshId: string)
    ensures Submitted(InitialState(groups, None, today), None, freshId) == None
  {
  }

  /** The record shapes the form itself produces: an id, a category, a list of
      items, no note, a group id exactly for group-owned records, and a slip
      only when there is one. */
  predicate FormShaped(t: Transaction) {
    t.id != "" && t.merchant != ""
    && Truthy(t.category) && t.items.Some? && t.note == None
    && (t.groupId.Some? <==> t.ownership == GroupOwned) && (t.groupId.Some? ==> Truthy(t.groupId))
    && (t.slipUrl.Some? ==> Truthy(t.slipUrl))
  }

  /** Opening the form on a record it could have produced and submitting it
      unchanged gives back the same record, under its own id. */
  lemma EditRoundTrip(groups: seq<Group>, t: Transaction, today: Date, freshId: string)
    requires FormShaped(t)
    ensures Submitted(InitialState(groups, Some(t), today), Some(t), freshId) == Some(t)
  {
  }

  /** Opening the form on a record with a note and submitting it drops the
      note, since the form has no field for it. */
  lemma EditDropsNote(groups: seq<Group>, t: Transaction, today: Date, freshId: string)
    requires t.merchant != ""
    ensures var r := Submitted(InitialState(groups, Some(t), today), Some(t), freshId);
      r.Some? && r.value.id == (if t.id != "" then t.id else freshId) && r.value.note == None
  {
  }

  /** A successful scan with a merchant makes the form submittable, and the
      record it submits is the scanned expense. */
  lemma ScanThenSubmit(st: FormState, result: ScanResult, initialData: Option<Transaction>, freshId: string)
    requires result.merchant != ""
    ensures var r := Submitted(MergeScan(st, result), initialData, freshId);
      r.Some? && r.value.merchant == result.merchant && r.value.amount == result.amount
      && r.value.date == result.date && r.value.items == Some(result.items) && r.value.kind == Expense
      && r.value.category.value in Categories + [st.category]
  {
  }

  /** A failed scan fills the form with the placeholder, which can be
      submitted as it stands: a zero expense named "Error Scanning". */
  lemma FailedScanSubmitsPlaceholder(st: FormState, today: Date, initialData: Option<Transaction>, freshId: string)
    ensures var r := Submitted(MergeScan(st, FallbackScan(today)), initialData, freshId);
      r.Some? && r.value.merchant == "Error Scanning" && r.value.amount == 0.0
      && r.value.date == today && r.value.kind == Expense && r.value.category == Some("Other")
      && r.value.items == Some([])
  {
  }

  /** After a scan answer without an amount (its merchant is never empty,
      the scanner fills in a default name), the form can be submitted exactly
      when an amount was already entered, and it then submits the old entry
      under the scanned merchant. */
  lemma AmountMissingKeepsEntry(st: FormState, merchant: string, initialData: Option<Transaction>, freshId: string)
    requires merchant != ""
    ensures var r := Submitted(MerchantOnly(st, merchant), initialData, freshId);
      (r.Some? <==> st.amount.Some?)
      && (r.Some? ==> r.value.merchant == merchant && r.value.amount == st.amount.value
                      && r.value.date == st.date && r.value.kind == st.kind)
  {
  }

  /** Clearing the preview leaves a form that cannot be submitted until a
      merchant and an amount are entered again. */
  lemma ClearedIsIncomplete(st: FormState, initialData: Option<Transaction>, freshId: string)
    ensures Submitted(ClearPreview(st), initialData, freshId) == None
  {
  }

  /** The form component. */
  class TransactionForm {
    const initialData: Option<Transaction>
    var isScanning: bool
    var scanPreview: Option<string>
    var merchant: string
    var amount: Option<real>
    var date: Date
    var kind: TxType
    var ownership: Ownership
    var selectedGroupId: string
    var category: string
    var items: seq<string>

    function State(): FormState
      reads this
    {
      FormState(merchant, amount, date, kind, ownership, selectedGroupId, category, items, scanPreview)
    }

    /** The form as it opens, on `initialData` when editing; `today` is the
        clock's date. */
    constructor (groups: seq<Group>, initialData: Option<Transaction>, today: Date)
      ensures this.initialData == initialData && !isScanning
      ensures State() == InitialState(groups, initialData, today)
    {
      var st := InitialState(groups, initialData, today);
      this.initialData := initialData;
      isScanning := false;
      scanPreview := st.scanPreview;
      merchant := st.merchant;
      amount := st.amount;
      date := st.date;
      kind := st.kind;
      ownership := st.ownership;
      selectedGroupId := st.selectedGroupId;
      category := st.category;
      items := st.items;
    }

    /** A file was chosen: the scan is under way. */
    method BeginScan()
      modifies this`isScanning
      ensures isScanning
    {
      isScanning := true;
    }

    /** The file reader finished: its data URL becomes the preview. */
    method ShowPreview(dataUrl: string)
      modifies this`scanPreview
      ensures scanPreview == Some(dataUrl)
    {
      scanPreview := Some(dataUrl);
    }

    /** The scan came back. A complete answer is merged into the form; an
        answer without an amount sets the merchant and then throws, and the
        error is caught (the alert is not modelled). Either way scanning is
        over. */
    method FinishScan(outcome: ScanOutcome)
      modifies this
      ensures !isScanning
      ensures outcome.Scanned? ==> State() == MergeScan(old(State()), outcome.result)
      ensures outcome.AmountMissing? ==> State() == MerchantOnly(old(State()), outcome.merchant)
    {
      ghost var before := State();
      if outcome.Scanned? {
        var result := outcome.result;
        merchant := result.merchant;
        amount := Some(result.amount);
        date := result.date;
        items := result.items;
        kind := Expense;
        if result.category in Categories {
          category := result.category;
        }
        assert State() == MergeScan(before, result);
      } else {
        merchant := outcome.merchant;
      }
      isScanning := false;
    }

    /** The clear button on the preview. */
    method ClearScan()
      modifies this
      ensures State() == ClearPreview(old(State())) && isScanning == old(isScanning)
    {
      scanPreview := None;
      merchant := "";
      amount := None;
      items := [];
    }

    /** handleSubmit: the record handed to onAdd, if any. */
    method Submit(freshId: string) returns (r: Option<Transaction>)
      ensures r == Submitted(State(), initialData, freshId)
    {
      if merchant == "" || amount.None? {
        return None;
      }
      var id := freshId;
      if initialData.Some? && initialData.value.id != "" {
        id := initialData.value.id;
      }
      var slip: Option<string> := None;
      if Truthy(scanPreview) {
        slip := scanPreview;
      }
      var groupId: Option<string> := None;
      if ownership == GroupOwned {
        groupId := Some(selectedGroupId);
      }
      r := Some(Transaction(id, date, merchant, amount.value, kind, ownership, groupId,
                            Some(category), Some(items), None, slip));
    }
  }
}
