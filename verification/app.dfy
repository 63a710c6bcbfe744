/** The top-level screen (App.tsx): four state fields, the plan-trip handler
    split at its `await` into a begin step and a settle step, the reset
    handler, and the conditions that decide which views are rendered. */
module Application {
  import opened Types
  import ItineraryDisplay

  const UnknownErrorMessage: string := "An unknown error occurred. Please try again."

  /** What the awaited call can throw: an `Error` object, or any other value. */
  datatype Thrown = ErrorObject(message: string) | OtherValue

  /** How the awaited `generateItinerary` call ends. */
  datatype Settlement = Resolved(plan: ItineraryPlan) | Rejected(thrown: Thrown)

  /** The catch clause: an `Error`'s message, otherwise the fixed text. The
      text is empty only for an `Error` whose message is empty. */
  function FailureMessage(thrown: Thrown): (message: string)
    ensures thrown.ErrorObject? ==> message == thrown.message
    ensures thrown.OtherValue? ==> message == UnknownErrorMessage
    ensures message == "" <==> thrown == ErrorObject("")
  {
    match thrown
    case ErrorObject(m) => m
    case OtherValue => UnknownErrorMessage
  }

  /** JavaScript truthiness of a `string | null`: null and "" are falsy. */
  predicate Truthy(s: Option<string>) {
    s.Some? && s.value != ""
  }

  /** `{error && !isLoading && ...}`: never while loading, and an absent or
      empty message shows no error view. */
  predicate ErrorVisible(error: Option<string>, isLoading: bool)
    ensures ErrorVisible(error, isLoading) ==> !isLoading
    ensures error == None || error == Some("") ==> !ErrorVisible(error, isLoading)
  {
    Truthy(error) && !isLoading
  }

  /** `{itinerary && !isLoading && !error && ...}`: only with a plan, never
      while loading, and never together with the error view. */
  predicate ItineraryVisible(itinerary: Option<ItineraryPlan>, isLoading: bool, error: Option<string>)
    ensures ItineraryVisible(itinerary, isLoading, error) ==>
      itinerary.Some? && !isLoading && !ErrorVisible(error, isLoading)
  {
    itinerary.Some? && !isLoading && !Truthy(error)
  }

  class App {
    var itinerary: Option<ItineraryPlan>
    var isLoading: bool
    var error: Option<string>
    var showForm: bool
    /** Every request handed to the itinerary service, oldest first. */
    ghost var serviceRequests: seq<PlanRequest>

    /** Every handler leaves the form and the spinner not both shown. */
    ghost predicate Valid()
      reads this
    {
      !(showForm && isLoading)
    }

    constructor ()
      ensures Valid()
      ensures itinerary == None && !isLoading && error == None && showForm
      ensures serviceRequests == []
    {
      itinerary := None;
      isLoading := false;
      error := None;
      showForm := true;
      serviceRequests := [];
    }

    /** `{showForm && <PlannerForm/>}`: in a valid state, never beside the spinner. */
    predicate FormShown()
      reads this
      ensures Valid() ==> !(FormShown() && SpinnerShown())
    {
      showForm
    }

    /** `{isLoading && <LoadingSpinner/>}`: never beside the error or itinerary view. */
    predicate SpinnerShown()
      reads this
      ensures SpinnerShown() ==> !ErrorShown() && !ItineraryShown()
    {
      isLoading
    }

    predicate ErrorShown() reads this { ErrorVisible(error, isLoading) }
    predicate ItineraryShown() reads this { ItineraryVisible(itinerary, isLoading, error) }

    /** The itinerary view: `ItineraryDisplay` is given the plan's own
        destination as its heading. */
    function DisplayedView(): (view: ItineraryDisplay.ItineraryView)
      requires ItineraryShown()
      reads this
      ensures view.heading == itinerary.value.destination
      ensures |view.sections| == |itinerary.value.itinerary|
    {
      ItineraryDisplay.Render(itinerary.value, itinerary.value.destination)
    }

    /** `handlePlanTrip` up to its `await`: show the spinner, clear the error
        and the plan, hide the form, and send the request. */
    method BeginPlanTrip(request: PlanRequest)
      modifies this
      ensures Valid()
      ensures isLoading && error == None && itinerary == None && !showForm
      ensures serviceRequests == old(serviceRequests) + [request]
      ensures SpinnerShown() && !FormShown() && !ErrorShown() && !ItineraryShown()
    {
      isLoading := true;
      error := None;
      itinerary := None;
      showForm := false;
      serviceRequests := serviceRequests + [request];
    }

    /** `handlePlanTrip` after its `await`: the try stores the plan, the catch
        stores the message, and the finally clears the spinner. */
    method SettlePlanTrip(outcome: Settlement)
      modifies this`itinerary, this`error, this`isLoading
      ensures Valid() && !isLoading && !SpinnerShown() && showForm == old(showForm)
      ensures outcome.Resolved? ==> itinerary == Some(outcome.plan) && error == old(error)
      ensures outcome.Rejected? ==> itinerary == old(itinerary)
      ensures outcome.Rejected? && outcome.thrown.ErrorObject? ==> error == Some(outcome.thrown.message)
      ensures outcome.Rejected? && outcome.thrown.OtherValue? ==> error == Some(UnknownErrorMessage)
      ensures outcome.Resolved? ==> (ItineraryShown() <==> !Truthy(old(error)))
      ensures outcome.Rejected? ==> (ErrorShown() <==> FailureMessage(outcome.thrown) != "")
    {
      match outcome {
        case Resolved(plan) =>
          itinerary := Some(plan);
        case Rejected(thrown) =>
          error := Some(FailureMessage(thrown));
      }
      isLoading := false;
    }

    /** `handleReset`: back to the empty form, whatever the prior state. */
    method HandleReset()
      modifies this`itinerary, this`error, this`isLoading, this`showForm
      ensures Valid()
      ensures itinerary == None && error == None && !isLoading && showForm
      ensures FormShown() && !SpinnerShown() && !ErrorShown() && !ItineraryShown()
    {
      itinerary := None;
      error := None;
      isLoading := false;
      showForm := true;
    }
  }

  /** A whole request: begin, then settle. Success shows exactly the returned
      plan under its own destination; failure shows the error view unless the
      message is empty, in which case nothing but the page frame is rendered. */
  method PlanTrip(app: App, request: PlanRequest, outcome: Settlement)
    modifies app
    ensures !app.isLoading && !app.showForm
    ensures app.serviceRequests == old(app.serviceRequests) + [request]
    ensures outcome.Resolved? ==> app.error == None
    ensures outcome.Rejected? ==> app.error == Some(FailureMessage(outcome.thrown))
    ensures outcome.Resolved? ==>
      app.ItineraryShown() && !app.ErrorShown() && app.itinerary == Some(outcome.plan) &&
      app.DisplayedView().heading == outcome.plan.destination
    ensures outcome.Rejected? ==>
      app.itinerary == None && !app.ItineraryShown() &&
      (app.ErrorShown() <==> FailureMessage(outcome.thrown) != "")
  {
    app.BeginPlanTrip(request);
    app.SettlePlanTrip(outcome);
  }

  /** Reset does not cancel a request in flight: a settlement that arrives
      after a reset still lands, so the form and the plan are shown together. */
  method LateSettlementAfterReset(app: App, request: PlanRequest, plan: ItineraryPlan)
    modifies app
    ensures app.FormShown() && app.ItineraryShown() && app.itinerary == Some(plan)
  {
    app.BeginPlanTrip(request);
    app.HandleReset();
    app.SettlePlanTrip(Resolved(plan));
  }
}
