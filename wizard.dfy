/**
 * The wizard page: a step counter (1 to 4) and a flat record of everything
 * submitted so far. Each step form hands its validated values to the submit
 * handler, which merges them into the record (later keys win). At steps 1
 * and 2 it then advances; at step 3 it first posts the merged record to the
 * submission endpoint and advances only if the response is ok, showing a
 * success or an error notice. Step 4 shows a thank-you screen and no form.
 */
module Wizard {
  import opened Values

  /** What the POST of step 3 comes to: an ok response, a response that is not ok, or a thrown error. */
  datatype PostOutcome = Ok | NotOk | Threw

  /** The toast shown after a submit, if any. */
  datatype Notice = NoNotice | Toast(title: string, description: string, destructive: bool)

  const SuccessNotice: Notice := Toast("Success!", "Your form has been submitted successfully.", false)
  const ErrorNotice: Notice := Toast("Error", "Failed to save form data. Please try again.", true)

  /** The three step forms, in order. */
  datatype StepForm = Business | Website | Marketing

  /** What the page's card shows: a step form, the thank-you screen, or nothing. */
  datatype Screen = FormScreen(form: StepForm) | ThankYou | Blank

  /** The card's content for a step: form i at step i, thanks at step 4. */
  function ScreenOf(step: int): (s: Screen)
    ensures s.FormScreen? <==> 1 <= step <= 3
    ensures s.ThankYou? <==> step == 4
    ensures step == 1 ==> s == FormScreen(Business)
    ensures step == 2 ==> s == FormScreen(Website)
    ensures step == 3 ==> s == FormScreen(Marketing)
  {
    if step == 1 then FormScreen(Business)
    else if step == 2 then FormScreen(Website)
    else if step == 3 then FormScreen(Marketing)
    else if step == 4 then ThankYou
    else Blank
  }

  /** The progress bar's value, `((step - 1) / 2) * 100`, in exact arithmetic. */
  function Progress(step: int): (p: int)
    ensures 2 * p == 100 * (step - 1)
  {
    (step - 1) * 50
  }

  /** `{ ...formData, ...data }`: every key of either, the submitted value winning on a clash. */
  function Merge(formData: Record, data: Record): (r: Record)
    ensures r.Keys == formData.Keys + data.Keys
    ensures forall k :: k in data ==> r[k] == data[k]
    ensures forall k :: k in formData && k !in data ==> r[k] == formData[k]
  {
    formData + data
  }

  /** The step after a submit: one more, except when the POST of step 3 fails. */
  function NextStep(step: int, outcome: PostOutcome): (n: int)
    ensures n == step || n == step + 1
    ensures n == step <==> step == 3 && outcome != Ok
  {
    if step == 3 && outcome != Ok then step else step + 1
  }

  class Home {
    var step: int
    var formData: Record

    /** The step stays within the four screens. */
    ghost predicate Valid()
      reads this
    {
      1 <= step <= 4
    }

    /** The page starts at step 1 with nothing submitted. */
    constructor ()
      ensures Valid() && step == 1 && formData == map[]
    {
      step := 1;
      formData := map[];
    }

    /**
     * `handleFormSubmit`: `data` is what the current step's form accepted and
     * `outcome` what the POST comes to when one is made (step 3 only). The
     * merged record is stored before the POST and kept when it fails.
     * `request` is the body posted, if any; `notice` the toast shown.
     * Only the forms of steps 1 to 3 hold this handler.
     */
    method Submit(data: Record, outcome: PostOutcome) returns (request: Option<Record>, notice: Notice)
      requires Valid() && ScreenOf(step).FormScreen?
      modifies this
      ensures Valid() && old(step) <= step
      ensures formData == Merge(old(formData), data)
      ensures request == if old(step) == 3 then Some(formData) else None
      ensures notice == if old(step) != 3 then NoNotice else if outcome == Ok then SuccessNotice else ErrorNotice
      ensures step == NextStep(old(step), outcome)
    {
      var updated := Merge(formData, data);
      formData := updated;
      request, notice := None, NoNotice;
      if step == 3 {
        request := Some(updated);
        match outcome
        case Ok =>
          notice := SuccessNotice;
        case NotOk =>
          // `!response.ok` throws into the same handler as a failed fetch
          notice := ErrorNotice;
          return;
        case Threw =>
          notice := ErrorNotice;
          return;
      }
      step := step + 1;
    }
  }

  /** Submitting the same data again after a failed POST leaves the record as it was. */
  lemma MergeIdempotent(formData: Record, data: Record)
    ensures Merge(Merge(formData, data), data) == Merge(formData, data)
  {
  }

  /** The progress bar reads 0, 50 and 100 on the three forms and 150, past full, on the thank-you screen. */
  lemma ProgressAtEachStep()
    ensures Progress(1) == 0 && Progress(2) == 50 && Progress(3) == 100
    ensures Progress(4) == 150
    ensures forall s, t :: s <= t ==> Progress(s) <= Progress(t)
  {
  }

  /** The thank-you screen holds no form, so no submit can follow step 4. */
  lemma NoSubmitAfterThanks()
    ensures !ScreenOf(4).FormScreen?
    ensures forall s, o :: ScreenOf(s).FormScreen? ==> NextStep(s, o) <= 4
  {
  }
}
