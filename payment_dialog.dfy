/**
 * The add/edit payment-method dialog as a state machine: the form it holds, the
 * validation errors it shows, the submission that waits out its delay, and the
 * calls it makes to its owner (`onAdd` with the new method, `onOpenChange(false)`).
 *
 * The delay between pressing an add button and emitting the method is split in
 * two steps: `AddCard`/`AddPayPal` start the submission, `FinishSubmit` is the
 * timer firing. The clock reading and the date are parameters of `FinishSubmit`.
 */
module PaymentDialog {
  import opened Strings
  import opened PaymentForm

  const Countries: seq<string> := [
    "United States", "Canada", "United Kingdom", "Australia", "India", "Germany", "France",
    "Japan", "Brazil", "Mexico", "Singapore", "Netherlands", "Sweden", "Switzerland"
  ]

  datatype PaymentTab = CardTab | PayPalTab

  /** A submission waiting for its delay, holding the form as it was when the button was pressed. */
  datatype Submission = CardSubmission(form: FormData) | PayPalSubmission(form: FormData)

  /** Everything the dialog keeps, for stating what an event changes. */
  datatype DialogState = DialogState(
    paymentType: PaymentTab,
    formData: FormData,
    errors: seq<ValidationError>,
    isSubmitting: bool,
    pending: Option<Submission>,
    added: seq<PaymentMethod>,
    closeRequests: nat)

  /** Editing a PayPal method opens the PayPal tab; anything else opens the card tab. */
  function InitialTab(editing: Option<PaymentMethod>): (r: PaymentTab)
    ensures r == PayPalTab <==> editing.Some? && editing.value.methodType == PayPal
  {
    if editing.Some? && editing.value.methodType == PayPal then PayPalTab else CardTab
  }

  /**
   * The form a dialog opens with: name, number and expiry of the method being edited,
   * its number again as e-mail when it is a PayPal method, no CVC, the first country.
   */
  function InitialForm(editing: Option<PaymentMethod>): (r: FormData)
    ensures r.cvc == "" && r.country == "United States"
    ensures editing.None? ==> r == EmptyForm
    ensures editing.Some? ==>
      r.cardholderName == editing.value.cardholderName && r.cardNumber == editing.value.cardNumber &&
      r.expiryDate == editing.value.expiryDate &&
      r.paypalEmail == (if editing.value.methodType == PayPal then editing.value.cardNumber else "")
  {
    match editing
    case None => EmptyForm
    case Some(m) =>
      FormData(m.cardholderName, m.cardNumber, m.expiryDate, "", "United States",
        if m.methodType == PayPal then m.cardNumber else "")
  }

  /** A submission only starts from a form its validator accepted. */
  predicate Accepted(s: Submission) {
    match s
    case CardSubmission(form) => CardErrors(form) == []
    case PayPalSubmission(form) => PayPalErrors(form) == []
  }

  /** The method a finished submission hands to `onAdd`. */
  function Emitted(s: Submission, editing: Option<PaymentMethod>, now: nat, today: string): (r: PaymentMethod)
    ensures s.CardSubmission? ==> r == NewCardMethod(s.form, editing, now, today)
    ensures s.PayPalSubmission? ==> r == NewPayPalMethod(s.form, editing, now, today)
  {
    match s
    case CardSubmission(form) => NewCardMethod(form, editing, now, today)
    case PayPalSubmission(form) => NewPayPalMethod(form, editing, now, today)
  }

  /**
   * What holds of every dialog state: a submission runs exactly when one is pending, and
   * only an accepted form is pending; the country is a listed one; the CVC field holds at
   * most four digits.
   */
  ghost predicate Consistent(s: DialogState) {
    (s.isSubmitting <==> s.pending.Some?) &&
    (s.pending.Some? ==> Accepted(s.pending.value)) &&
    s.formData.country in Countries &&
    AllDigits(s.formData.cvc) && |s.formData.cvc| <= 4
  }

  /** The state `resetForm` leaves behind, with no submission running, is consistent. */
  lemma ResetIsConsistent(added: seq<PaymentMethod>, closeRequests: nat)
    ensures Consistent(DialogState(CardTab, EmptyForm, [], false, None, added, closeRequests))
  {
    assert EmptyForm.country == Countries[0];
  }

  class Dialog {
    const editingMethod: Option<PaymentMethod>
    var paymentType: PaymentTab
    var formData: FormData
    var errors: seq<ValidationError>
    var isSubmitting: bool
    var pending: Option<Submission>
    /** Every method passed to `onAdd`, oldest first. */
    var added: seq<PaymentMethod>
    /** How often `onOpenChange(false)` was called. */
    var closeRequests: nat

    function State(): DialogState
      reads this
    {
      DialogState(paymentType, formData, errors, isSubmitting, pending, added, closeRequests)
    }

    ghost predicate Valid()
      reads this
    {
      Consistent(State())
    }

    constructor (editing: Option<PaymentMethod>)
      ensures Valid() && editingMethod == editing
      ensures State() == DialogState(InitialTab(editing), InitialForm(editing), [], false, None, [], 0)
    {
      editingMethod := editing;
      paymentType := InitialTab(editing);
      formData := InitialForm(editing);
      errors := [];
      isSubmitting := false;
      pending := None;
      added := [];
      closeRequests := 0;
    }

    /** The card network shown beside the number field. */
    function ShownNetwork(): (r: string)
      reads this
      ensures r == CardNetwork(formData.cardNumber)
    {
      CardNetwork(formData.cardNumber)
    }

    /** `getErrorMessage(field)` over the errors currently shown. */
    function ErrorFor(f: Field): (r: string)
      reads this
      ensures !HasError(errors, f) ==> r == ""
      ensures forall i :: 0 <= i < |errors| && errors[i].field == f && (forall j :: 0 <= j < i ==> errors[j].field != f) ==>
        r == errors[i].message
    {
      ErrorMessageOfFirst(errors, f);
      ErrorMessage(errors, f)
    }

    method ChangeCardholderName(value: string)
      requires Valid()
      modifies this
      ensures Valid()
      ensures State() == old(State()).(formData := old(formData).(cardholderName := value))
    {
      formData := formData.(cardholderName := value);
    }

    /** `handleCardNumberChange`: the field shows the formatted input (its shape: `FormatCardNumberShape`). */
    method ChangeCardNumber(raw: string)
      requires Valid()
      modifies this
      ensures Valid()
      ensures State() == old(State()).(formData := old(formData).(cardNumber := FormatCardNumber(raw)))
    {
      var shown := FormatCardNumber(raw);
      ghost var before := State();
      var form := formData.(cardNumber := shown);
      formData := form;
      assert State() == before.(formData := form);
    }

    /** `handleExpiryChange` */
    method ChangeExpiry(raw: string)
      requires Valid()
      modifies this
      ensures Valid()
      ensures State() == old(State()).(formData := old(formData).(expiryDate := FormatExpiry(raw)))
      ensures |formData.expiryDate| <= 5
    {
      formData := formData.(expiryDate := FormatExpiry(raw));
    }

    /** `handleCvcChange` */
    method ChangeCvc(raw: string)
      requires Valid()
      modifies this
      ensures Valid()
      ensures State() == old(State()).(formData := old(formData).(cvc := FormatCvc(raw)))
    {
      formData := formData.(cvc := FormatCvc(raw));
    }

    /** The country select offers only the listed countries. */
    method SelectCountry(value: string)
      requires Valid() && value in Countries
      modifies this
      ensures Valid()
      ensures State() == old(State()).(formData := old(formData).(country := value))
    {
      formData := formData.(country := value);
    }

    method ChangePayPalEmail(value: string)
      requires Valid()
      modifies this
      ensures Valid()
      ensures State() == old(State()).(formData := old(formData).(paypalEmail := value))
    {
      formData := formData.(paypalEmail := value);
    }

    /** Either tab button: switch the tab and clear the errors, keeping the form. */
    method SelectTab(tab: PaymentTab)
      requires Valid()
      modifies this
      ensures Valid()
      ensures State() == old(State()).(paymentType := tab, errors := [])
    {
      paymentType := tab;
      errors := [];
    }

    /**
     * `handleAddCard` up to its delay. The button is on the card tab and disabled while
     * a submission is running. The errors shown are the validator's; only an accepted
     * form starts a submission.
     */
    method AddCard()
      requires Valid() && paymentType == CardTab && !isSubmitting
      modifies this
      ensures Valid()
      ensures State() == old(State()).(
        errors := CardErrors(old(formData)),
        isSubmitting := CardErrors(old(formData)) == [],
        pending := if CardErrors(old(formData)) == [] then Some(CardSubmission(old(formData))) else None)
    {
      var data := formData;
      var validationErrors := ValidateCardForm(data);
      errors := validationErrors;
      if |validationErrors| > 0 {
        return;
      }
      isSubmitting := true;
      pending := Some(CardSubmission(data));
    }

    /** `handleAddPayPal` up to its delay. */
    method AddPayPal()
      requires Valid() && paymentType == PayPalTab && !isSubmitting
      modifies this
      ensures Valid()
      ensures State() == old(State()).(
        errors := PayPalErrors(old(formData)),
        isSubmitting := PayPalErrors(old(formData)) == [],
        pending := if PayPalErrors(old(formData)) == [] then Some(PayPalSubmission(old(formData))) else None)
    {
      var data := formData;
      var validationErrors := ValidatePayPalForm(data);
      errors := validationErrors;
      if |validationErrors| > 0 {
        return;
      }
      isSubmitting := true;
      pending := Some(PayPalSubmission(data));
    }

    /** `resetForm` */
    method ResetForm()
      requires Valid()
      modifies this
      ensures Valid()
      ensures State() == old(State()).(formData := EmptyForm, errors := [], paymentType := CardTab)
    {
      formData := EmptyForm;
      errors := [];
      paymentType := CardTab;
    }

    /**
     * The delay of a running submission ends at clock reading `now` on date `today`: the
     * method built from the captured form goes to `onAdd`, the form is reset and closing
     * is requested.
     */
    method FinishSubmit(now: nat, today: string)
      requires Valid() && isSubmitting
      modifies this
      ensures Valid()
      ensures added == old(added) + [Emitted(old(pending).value, editingMethod, now, today)]
      ensures State() == DialogState(CardTab, EmptyForm, [], false, None, added, old(closeRequests) + 1)
    {
      added := added + [Emitted(pending.value, editingMethod, now, today)];
      ResetForm();
      closeRequests := closeRequests + 1;
      isSubmitting := false;
      pending := None;
      ResetIsConsistent(added, closeRequests);
    }

    /**
     * `handleClose`, also what the dialog calls when dismissed. Dismissing is possible while
     * a submission runs; that submission still completes.
     */
    method Close()
      requires Valid()
      modifies this
      ensures Valid()
      ensures State() ==
        old(State()).(formData := EmptyForm, errors := [], paymentType := CardTab, closeRequests := old(closeRequests) + 1)
    {
      ResetForm();
      closeRequests := closeRequests + 1;
    }
  }

  /** Every method the dialog emits came from a form its validator accepted. */
  lemma EmittedFromAcceptedForm(s: Submission, editing: Option<PaymentMethod>, now: nat, today: string)
    requires Accepted(s)
    ensures s.CardSubmission? ==>
      var m := NewCardMethod(s.form, editing, now, today);
      |m.cardNumber| == 4 && NoSpaces(m.cardNumber) && ValidExpiry(m.expiryDate) && NameGiven(m.cardholderName)
    ensures s.PayPalSubmission? ==> EmailMatches(NewPayPalMethod(s.form, editing, now, today).cardNumber)
  {
    if s.CardSubmission? {
      CardChecksDescribe(s.form);
    }
  }
}
