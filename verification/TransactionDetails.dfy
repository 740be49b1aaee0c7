/**
 * The add/edit form (`TransactionDetailsViewController`) as a state machine:
 * the stored field values, the add-or-edit mode, which callbacks are set, and
 * what the on-screen controls currently show. Pressing the button checks the
 * form and either rejects it or hands a record to one callback and resets
 * the mode.
 */
module TransactionDetails {
  import opened Transactions

  /** The category menu of the form. */
  const DetailCategoryStrings: seq<string> := ["Mortgage", "Cable and Internet", "Grocery", "Dining Out", "Alcohol"]

  /** What the date picker, the vendor field and the amount field show (an empty amount field reads as 0). */
  datatype Form = Form(pickerDate: int, vendorText: string, amountValue: int)

  datatype DetailsState = DetailsState(
    category: string,
    date: int,
    vendor: string,
    amount: int,
    editingExistingTransaction: bool,
    hasAddCallback: bool,
    hasEditCallback: bool,
    form: Form)

  /** The form as first created: empty texts, zero amount, add mode, no callbacks. */
  function InitialDetails(now: int): DetailsState
  {
    DetailsState("", now, "", 0, false, false, false, Form(now, "", 0))
  }

  /** Which callback a button press ran, and with what arguments. */
  datatype Invocation =
    | NoCallback
    | AddCalled(transaction: Transaction, updateView: bool)
    | EditCalled(transaction: Transaction, updateView: bool)

  datatype PressOutcome = PressOutcome(state: DetailsState, invoked: Invocation, dismissed: bool)

  /** The form passes the gate: a vendor is entered and the amount is positive. */
  predicate Accepted(f: Form)
  {
    f.vendorText != "" && f.amountValue > 0
  }

  /**
   * `handleAddOrEditButtonPress`: the picker's date and the vendor text are
   * taken first; an empty vendor stops there. The amount is taken next; a
   * non-positive amount stops there. Either rejection runs no callback and
   * keeps the mode and callbacks. An accepted form runs the edit callback in
   * edit mode or the add callback in add mode, if that callback is set, with
   * the record (date, category, amount, vendor); then the mode goes back to
   * adding, both callbacks are cleared and the form is dismissed.
   */
  function HandleAddOrEditButtonPress(s: DetailsState): (out: PressOutcome)
    ensures out.state.date == s.form.pickerDate && out.state.vendor == s.form.vendorText
    ensures out.state.category == s.category && out.state.form == s.form
    ensures out.dismissed <==> Accepted(s.form)
    ensures out.invoked.EditCalled? <==> Accepted(s.form) && s.editingExistingTransaction && s.hasEditCallback
    ensures out.invoked.AddCalled? <==> Accepted(s.form) && !s.editingExistingTransaction && s.hasAddCallback
    ensures !out.invoked.NoCallback? ==>
      out.invoked.transaction == Transaction(s.form.pickerDate, s.category, s.form.amountValue, s.form.vendorText)
      && out.invoked.updateView
    ensures s.form.vendorText == "" ==> out.state.amount == s.amount
    ensures s.form.vendorText != "" ==> out.state.amount == s.form.amountValue
    ensures !Accepted(s.form) ==>
      && out.state.editingExistingTransaction == s.editingExistingTransaction
      && out.state.hasAddCallback == s.hasAddCallback
      && out.state.hasEditCallback == s.hasEditCallback
    ensures Accepted(s.form) ==>
      !out.state.editingExistingTransaction && !out.state.hasAddCallback && !out.state.hasEditCallback
  {
    var s1 := s.(date := s.form.pickerDate, vendor := s.form.vendorText);
    if s1.vendor == "" then
      PressOutcome(s1, NoCallback, false)
    else
      var s2 := s1.(amount := s1.form.amountValue);
      if s2.amount <= 0 then
        PressOutcome(s2, NoCallback, false)
      else
        var record := Transaction(s2.date, s2.category, s2.amount, s2.vendor);
        var invoked :=
          if s2.editingExistingTransaction then
            (if s2.hasEditCallback then EditCalled(record, true) else NoCallback)
          else
            (if s2.hasAddCallback then AddCalled(record, true) else NoCallback);
        PressOutcome(s2.(editingExistingTransaction := false, hasAddCallback := false, hasEditCallback := false),
                     invoked, true)
  }

  /**
   * `setDefaultDetailValues`: the category becomes the first menu entry, the
   * picker shows the current date, and both text fields are emptied.
   */
  function SetDefaultDetailValues(s: DetailsState, now: int): (r: DetailsState)
    ensures r.category == DetailCategoryStrings[0]
    ensures r.form.pickerDate == now && r.form.vendorText == "" && r.form.amountValue == 0
    ensures r == s.(category := r.category, form := r.form)
  {
    s.(category := DetailCategoryStrings[0], form := Form(now, "", 0))
  }

  /** `setSpecificDetailValues`: the four stored fields are copied from the record, nothing else changes. */
  function SetSpecificDetailValues(s: DetailsState, t: Transaction): (r: DetailsState)
    ensures Transaction(r.date, r.category, r.amount, r.vendor) == t
    ensures r == s.(category := r.category, date := r.date, vendor := r.vendor, amount := r.amount)
  {
    s.(category := t.category, date := t.date, vendor := t.vendor, amount := t.amount)
  }

  /**
   * `viewWillAppear`: in edit mode the controls show the stored values; in
   * add mode the form is reset to its defaults.
   */
  function ViewWillAppear(s: DetailsState, now: int): (r: DetailsState)
    ensures s.editingExistingTransaction ==> r == s.(form := Form(s.date, s.vendor, s.amount))
    ensures !s.editingExistingTransaction ==> r == SetDefaultDetailValues(s, now)
  {
    if s.editingExistingTransaction then s.(form := Form(s.date, s.vendor, s.amount))
    else SetDefaultDetailValues(s, now)
  }

  /** A freshly reset form is always refused: its vendor field is empty. */
  lemma DefaultFormIsRejected(s: DetailsState, now: int)
    ensures var out := HandleAddOrEditButtonPress(ViewWillAppear(s.(editingExistingTransaction := false), now));
      out.invoked == NoCallback && !out.dismissed
  {
  }

  /**
   * Opening a stored record for editing and confirming it untouched hands the
   * edit callback the very same record, provided the record itself passes the
   * gate; a record with an empty vendor or a non-positive amount cannot be
   * confirmed unchanged.
   */
  lemma EditRoundTrip(s: DetailsState, t: Transaction, now: int)
    requires s.hasEditCallback
    ensures var shown := ViewWillAppear(SetSpecificDetailValues(s.(editingExistingTransaction := true), t), now);
      var out := HandleAddOrEditButtonPress(shown);
      && (t.vendor != "" && t.amount > 0 ==> out.invoked == EditCalled(t, true) && out.dismissed)
      && (t.vendor == "" || t.amount <= 0 ==> out.invoked == NoCallback && out.state.editingExistingTransaction)
  {
  }

  /** An accepted press in add mode leaves the form ready for the next add: reopening it resets the controls. */
  lemma AcceptedPressReturnsToAddMode(s: DetailsState, now: int)
    requires Accepted(s.form)
    ensures var out := HandleAddOrEditButtonPress(s);
      ViewWillAppear(out.state, now).form == Form(now, "", 0)
  {
  }

  /**
   * The first time the form opens, in add mode, the category becomes the
   * first menu entry and the controls show the current date and empty fields.
   */
  lemma FirstOpenShowsDefaults(created: int, now: int)
    ensures var shown := ViewWillAppear(InitialDetails(created), now);
      && shown.category == "Mortgage"
      && shown.form == Form(now, "", 0)
      && !shown.editingExistingTransaction
  {
  }
}
