/** The itinerary records exchanged between the planner form, the top-level
    screen and the itinerary view (types.ts), plus the request tuple that the
    form hands to the screen. */
module Types {

  datatype Option<+T> = None | Some(value: T)

  /** Declared on every activity but never requested from the generating
      service and never read; kept as an unconstrained field. */
  datatype Location = Location(latitude: real, longitude: real)

  datatype ItineraryActivity = ItineraryActivity(
    time: string,
    description: string,
    estimatedCost: string,
    location: Location)

  datatype ItineraryDay = ItineraryDay(
    day: int,
    title: string,
    activities: seq<ItineraryActivity>,
    dailyBudget: string)

  datatype ItineraryPlan = ItineraryPlan(destination: string, itinerary: seq<ItineraryDay>)

  /** The arguments of one `onPlanTrip(destination, budget, interests)` call. */
  datatype PlanRequest = PlanRequest(destination: string, budget: string, interests: seq<string>)
}
