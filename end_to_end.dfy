/**
 * The whole intake run: the three step forms feed the wizard, whose step 3
 * posts the merged record to the submission endpoint, whose response decides
 * whether the wizard reaches its thank-you screen.
 */
module EndToEnd {
  import opened Values
  import BusinessForm
  import WebsiteForm
  import MarketingForm
  import Wizard
  import SubmitRoute

  /** How `fetch` reports an endpoint response: `response.ok` means a 2xx status. */
  function FetchOutcome(response: SubmitRoute.Response): (o: Wizard.PostOutcome)
    ensures o == Wizard.Ok <==> 200 <= response.status <= 299
    ensures o != Wizard.Threw
  {
    if 200 <= response.status <= 299 then Wizard.Ok else Wizard.NotOk
  }

  /** The record the wizard posts after three accepted steps. */
  function Merged(b: BusinessForm.BusinessValues, w: WebsiteForm.WebsiteValues, m: MarketingForm.MarketingValues): Record
  {
    BusinessForm.Payload(b) + WebsiteForm.Payload(w) + MarketingForm.Payload(m)
  }

  /** The three forms' top-level keys are disjoint, so no step overwrites another's fields. */
  lemma StepsDoNotOverlap(b: BusinessForm.BusinessValues, w: WebsiteForm.WebsiteValues, m: MarketingForm.MarketingValues)
    ensures BusinessForm.Payload(b).Keys !! WebsiteForm.Payload(w).Keys
    ensures BusinessForm.Payload(b).Keys !! MarketingForm.Payload(m).Keys
    ensures WebsiteForm.Payload(w).Keys !! MarketingForm.Payload(m).Keys
  {
    BusinessWebsiteKeys();
    BusinessMarketingKeys();
    WebsiteMarketingKeys();
  }

  lemma BusinessWebsiteKeys()
    ensures BusinessForm.PayloadKeys !! WebsiteForm.PayloadKeys
  {
  }

  lemma BusinessMarketingKeys()
    ensures BusinessForm.PayloadKeys !! MarketingForm.FixedKeys
    ensures BusinessForm.PayloadKeys !! MarketingForm.OptionalKeys
  {
  }

  lemma WebsiteMarketingKeys()
    ensures WebsiteForm.PayloadKeys !! MarketingForm.FixedKeys
    ensures WebsiteForm.PayloadKeys !! MarketingForm.OptionalKeys
  {
  }

  /** Every step's values survive in the posted record, and nothing else is in it. */
  lemma NoStepLost(b: BusinessForm.BusinessValues, w: WebsiteForm.WebsiteValues, m: MarketingForm.MarketingValues)
    ensures var r := Merged(b, w, m);
      && r.Keys == BusinessForm.Payload(b).Keys + WebsiteForm.Payload(w).Keys + MarketingForm.Payload(m).Keys
      && (forall k :: k in BusinessForm.Payload(b) ==> r[k] == BusinessForm.Payload(b)[k])
      && (forall k :: k in WebsiteForm.Payload(w) ==> r[k] == WebsiteForm.Payload(w)[k])
      && (forall k :: k in MarketingForm.Payload(m) ==> r[k] == MarketingForm.Payload(m)[k])
  {
    StepsDoNotOverlap(b, w, m);
    UnionOfDisjoint(BusinessForm.Payload(b), WebsiteForm.Payload(w), MarketingForm.Payload(m));
  }

  /** Steps 1 and 2 accepting the payloads `p1` and `p2`: the wizard is left on the marketing form holding both. */
  method FirstTwoSteps(p1: Record, p2: Record) returns (home: Wizard.Home)
    ensures fresh(home) && home.Valid()
    ensures home.step == 3 && home.formData == p1 + p2
  {
    home := new Wizard.Home();
    var _, _ := home.Submit(p1, Wizard.Ok);
    assert home.formData == p1 by {
      assert map[] + p1 == p1;
    }
    var _, _ := home.Submit(p2, Wizard.Ok);
  }

  /**
   * Step 3 accepting the payload `p3`, with the endpoint behind the page
   * reading the posted body and its write coming to `write`.
   */
  method FinalStep(home: Wizard.Home, p3: Record, timestamp: string, write: SubmitRoute.WriteOutcome)
    returns (stored: Option<SubmitRoute.FileWrite>, notice: Wizard.Notice)
    requires home.Valid() && home.step == 3
    modifies home
    ensures home.Valid() && home.formData == old(home.formData) + p3
    ensures stored == Some(SubmitRoute.FileWrite(SubmitRoute.FileName(timestamp), Object(home.formData)))
    ensures home.step == if write.Written? then 4 else 3
    ensures notice == if write.Written? then Wizard.SuccessNotice else Wizard.ErrorNotice
  {
    var body := Wizard.Merge(home.formData, p3);
    var response;
    stored, response := SubmitRoute.Post(SubmitRoute.JsonBody(Object(body)), timestamp, write);
    var request;
    request, notice := home.Submit(p3, FetchOutcome(response));
    assert request == Some(body);
  }

  /**
   * Filling in the three forms with values their schemas accept, with the
   * endpoint reading the posted body and its write coming to `write`:
   * exactly the merged record is written to the timestamped file, and the
   * wizard ends on the thank-you screen if the write succeeded and stays on
   * step 3 otherwise.
   */
  method CompleteIntake(b: BusinessForm.BusinessValues, w: WebsiteForm.WebsiteValues, m: MarketingForm.MarketingValues,
                        timestamp: string, write: SubmitRoute.WriteOutcome)
    returns (stored: Option<SubmitRoute.FileWrite>, finalStep: int, notice: Wizard.Notice)
    requires BusinessForm.Valid(b) && WebsiteForm.Valid(w) && MarketingForm.Valid(m)
    ensures stored == Some(SubmitRoute.FileWrite(SubmitRoute.FileName(timestamp), Object(Merged(b, w, m))))
    ensures finalStep == if write.Written? then 4 else 3
    ensures notice == if write.Written? then Wizard.SuccessNotice else Wizard.ErrorNotice
  {
    var sb, sw, sm := BusinessForm.Submit(b), WebsiteForm.Submit(w), MarketingForm.Submit(m);
    var home := FirstTwoSteps(BusinessForm.Payload(sb.data), WebsiteForm.Payload(sw.data));
    stored, notice := FinalStep(home, MarketingForm.Payload(sm.data), timestamp, write);
    finalStep := home.step;
  }

  /**
   * A failed save followed by a retry of step 3 that succeeds: the wizard
   * reaches the thank-you screen and the file written holds the same record
   * as a first-time success would.
   */
  method RetryAfterFailedSave(b: BusinessForm.BusinessValues, w: WebsiteForm.WebsiteValues, m: MarketingForm.MarketingValues,
                              firstTry: string, secondTry: string, cause: string)
    returns (stored: Option<SubmitRoute.FileWrite>, finalStep: int)
    requires BusinessForm.Valid(b) && WebsiteForm.Valid(w) && MarketingForm.Valid(m)
    ensures stored == Some(SubmitRoute.FileWrite(SubmitRoute.FileName(secondTry), Object(Merged(b, w, m))))
    ensures finalStep == 4
  {
    var sb, sw, sm := BusinessForm.Submit(b), WebsiteForm.Submit(w), MarketingForm.Submit(m);
    var home := FirstTwoSteps(BusinessForm.Payload(sb.data), WebsiteForm.Payload(sw.data));
    var before := home.formData;
    var p3 := MarketingForm.Payload(sm.data);
    var _, _ := FinalStep(home, p3, firstTry, SubmitRoute.WriteFailed(cause));
    Wizard.MergeIdempotent(before, p3);
    var notice;
    stored, notice := FinalStep(home, p3, secondTry, SubmitRoute.Written);
    finalStep := home.step;
  }

  /** An example business step with no secondary languages moves the wizard to step 2 holding exactly its five fields. */
  method AcmeExample() returns (step: int, formData: Record)
    ensures step == 2
    ensures formData == map[
      BusinessName := Text("Acme Co"), BusinessDomain := Text("retail"), PrimaryService := Text("Widgets"),
      Location := Text("Austin"), PrimaryLanguage := Text("english")]
  {
    var acme := BusinessForm.BusinessValues("Acme Co", "retail", "Widgets", "Austin", "english", None);
    var accepted := BusinessForm.Submit(acme);
    assert accepted.Accepted?;
    var home := new Wizard.Home();
    var _, _ := home.Submit(BusinessForm.Payload(accepted.data), Wizard.Ok);
    step, formData := home.step, home.formData;
  }
}
