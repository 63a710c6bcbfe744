# AI Student Travel Planner: a verified model of its logic

The planner is a browser app. A user enters a destination, a budget tier and
some interest tags. The app asks a text-generation service for a five-day
itinerary and renders it day by day. This project models the three parts of it
that hold real logic, each in its own module:

- `ItineraryDisplay` (`itinerary_display.dfy`) covers the itinerary view. It
  has the keyword classifier that picks an activity's icon category. It
  lower-cases the description, then tests the food, culture, adventure and
  nightlife keyword lists in that order; the first list with a substring hit
  wins, and no hit gives the default. It also has the render walk, which
  produces one section per day and one entry per activity, both in array order.
- `PlannerForm` (`planner_form.dfy`) covers the form. The interest toggle is a
  pure list transform. The form itself is a class over its five state fields:
  destination, budget, interests, error and the submitting flag. A ghost log
  records every `onPlanTrip` hand-off. The submit handler validates with two
  ordered early returns. The submit button is gated by the submitting flag.
- `Application` (`app.dfy`) covers the top-level screen. It is a class over
  its four state fields: itinerary, loading flag, error and form visibility.
  The plan-trip handler is split at its `await` into a begin step and a
  settle step, and there is a reset handler. The predicates that decide which
  views are rendered follow JavaScript truthiness, so an empty error string
  counts as no error.
- `Types` (`types.dfy`) holds the itinerary records and the request tuple.

The icon category is a five-valued enumeration, so the classifier is total by
construction: every description maps to exactly one icon key.

Some behaviour of the code is worth stating outright:

- Days are rendered in array order. Nothing sorts them by their `day` number.
- The reset handler is not guarded against a request in flight, and nothing
  cancels that request. `Application.LateSettlementAfterReset` shows what a
  settlement arriving after a reset would do: the form and the plan are then
  shown together. No rendered control reaches that state. Both reset buttons
  are rendered only while nothing is loading (App.tsx:53 and :65), and the
  form is hidden while loading, so `handleReset` cannot run while a request
  is in flight. The lemma is about the handler, not about a screen a user
  can reach.
- Interests are a list, not a set. Toggling removes every occurrence.
- The failure text the screen shows is the thrown `Error`'s own message. Only
  a thrown value that is not an `Error` gets the fixed unknown-error text.

## Model

| member | source | states |
|---|---|---|
| `ItineraryDisplay.Lower` | components/ItineraryDisplay.tsx:19 | the lowered description has the same length; every upper-case ASCII letter becomes its own lower-case letter, and every other character is kept |
| `ItineraryDisplay.Includes` | components/ItineraryDisplay.tsx:20-23 | `includes` of the empty keyword always holds, and a keyword longer than the description never occurs in it |
| `ItineraryDisplay.IncludesAt` | components/ItineraryDisplay.tsx:20-23 | `includes` holds exactly when the keyword occurs as a substring at some position |
| `ItineraryDisplay.IncludesAny` | components/ItineraryDisplay.tsx:20-23 | a left-to-right chain of `includes` tests joined by logical or holds exactly when some keyword of the list occurs in the description |
| `ItineraryDisplay.Classify` | components/ItineraryDisplay.tsx:18-25 | food exactly when a food keyword occurs in the lowered description; culture exactly when none of the food keywords and some culture keyword occur; adventure exactly when no food or culture keyword and some adventure keyword occur; nightlife exactly when none of the three earlier lists and some nightlife keyword occur; default exactly when no keyword of any list occurs |
| `ItineraryDisplay.FoodDominates` | components/ItineraryDisplay.tsx:20 | any food keyword in the lowered description gives food, whatever other keywords occur |
| `ItineraryDisplay.ClassifyCaseInsensitive` | components/ItineraryDisplay.tsx:19 | two descriptions equal up to letter case get the same category |
| `ItineraryDisplay.ClassifyLowered` | components/ItineraryDisplay.tsx:19 | lower-casing a description first does not change its category |
| `ItineraryDisplay.TheaterIsFood` | components/ItineraryDisplay.tsx:20 | matching is by substring: "Evening at the Theater" is food because "theater" contains "eat" |
| `ItineraryDisplay.StartIsCulture` | components/ItineraryDisplay.tsx:20-21 | "Start" is culture: it contains "art" and no food keyword |
| `ItineraryDisplay.RenderActivities` | components/ItineraryDisplay.tsx:43-58 | one entry per activity, in array order, each holding its activity and the category classified from that activity's own description |
| `ItineraryDisplay.RenderDays` | components/ItineraryDisplay.tsx:34-61 | one section per day in array order; section i shows day i and one entry per activity of day i, in order, each classified from its own description |
| `ItineraryDisplay.Render` | components/ItineraryDisplay.tsx:27-34 | the heading is the `destination` passed in, and there is one section per day of the plan, section i showing day i |
| `PlannerForm.TrimStartSpec` | components/PlannerForm.tsx:25 | trimming the start leaves a suffix that does not begin with white space, and everything removed is white space |
| `PlannerForm.TrimEndSpec` | components/PlannerForm.tsx:25 | trimming the end leaves a prefix that does not end with white space, and everything removed is white space |
| `PlannerForm.Trim` | components/PlannerForm.tsx:25 | the trimmed string is no longer than the input and neither starts nor ends with white space |
| `PlannerForm.TrimSpec` | components/PlannerForm.tsx:25 | `trim` removes only a leading run and a trailing run of white space: the result is exactly the input between them |
| `PlannerForm.IsBlank` | components/PlannerForm.tsx:25 | `!destination.trim()` holds exactly when every character of the destination is white space, the empty destination included |
| `PlannerForm.RemoveAll` | components/PlannerForm.tsx:19 | the filter leaves no occurrence of the removed interest and keeps every other interest present |
| `PlannerForm.RemoveAllAppend` | components/PlannerForm.tsx:19 | the filter distributes over concatenation, so the interests it keeps stay in their relative order |
| `PlannerForm.Toggle` | components/PlannerForm.tsx:17-21 | the toggled interest's membership flips; every other interest's membership is unchanged |
| `PlannerForm.ToggleShape` | components/PlannerForm.tsx:19 | toggling a present interest removes every occurrence of it and keeps every other interest as often as it occurred; toggling an absent one appends it at the end with the rest unchanged |
| `PlannerForm.ToggleTwiceAbsent` | components/PlannerForm.tsx:19 | toggling the same absent interest twice gives back the original list |
| `PlannerForm.ToggleNoDuplicates` | components/PlannerForm.tsx:17-21 | a duplicate-free interest list stays duplicate-free after a toggle |
| `PlannerForm.SubmitError` | components/PlannerForm.tsx:25-32 | the destination message is given exactly when the destination is all white space, whatever the interests; the interests message exactly when the destination has a non-white-space character and no interest is selected; no message exactly when both checks pass |
| `PlannerForm.Form.constructor` | components/PlannerForm.tsx:11-15 | the form starts with an empty destination, the default budget, no interests, no error, not submitting and no hand-off |
| `PlannerForm.Form.SubmitEnabled` | components/PlannerForm.tsx:91 | in a valid form the submit button is enabled exactly while no request has been handed on |
| `PlannerForm.Form.SetDestination` | components/PlannerForm.tsx:49 | typing replaces the destination and changes nothing else |
| `PlannerForm.Form.SetBudget` | components/PlannerForm.tsx:62 | choosing a tier replaces the budget and changes nothing else |
| `PlannerForm.Form.ToggleInterest` | components/PlannerForm.tsx:17-21 | the interests become the toggled list, and the form invariant (at most one hand-off, no duplicate interest) is kept |
| `PlannerForm.Form.HandleSubmit` | components/PlannerForm.tsx:23-36 | the error becomes the validation message, or none; on a failed check the submitting flag and the hand-off log are unchanged; on success the flag is set and exactly one hand-off of the untrimmed destination, the budget and the interests is logged; the flag is never cleared |
| `PlannerForm.Form.SubmitForm` | components/PlannerForm.tsx:89-94 | a press while submitting changes nothing; an enabled press runs the submit handler: a failed check leaves the flag unset and hands nothing on, a passing one sets the flag and hands on exactly one request; the form never hands on more than one request |
| `PlannerForm.SubmitTwice` | components/PlannerForm.tsx:33-35 | after a valid submit, a second press of the disabled button leaves exactly one hand-off in the log |
| `Application.FailureMessage` | App.tsx:25 | the failure text is the `Error`'s message, or the fixed unknown-error text for any other thrown value; it is empty only for an `Error` whose message is empty |
| `Application.ErrorVisible` | App.tsx:53 | the error view is never shown while loading, and an absent or empty error message shows no error view |
| `Application.ItineraryVisible` | App.tsx:65 | the itinerary view is shown only with a plan, never while loading, and never together with the error view |
| `Application.App.constructor` | App.tsx:11-14 | the screen starts with no plan, not loading, no error and the form shown |
| `Application.App.FormShown` | App.tsx:47 | in a state the handlers produce, the form and the loading spinner are never shown together |
| `Application.App.SpinnerShown` | App.tsx:51 | while the spinner is shown, neither the error view nor the itinerary view is |
| `Application.App.DisplayedView` | App.tsx:65-67 | the itinerary view's heading is the plan's own destination, with one section per day of the plan |
| `Application.App.BeginPlanTrip` | App.tsx:16-20 | loading is set, the error and the plan are cleared, the form is hidden, and one request is sent; only the spinner is shown |
| `Application.App.SettlePlanTrip` | App.tsx:21-28 | on success the plan is exactly the returned one and the error is untouched; on failure the error is the thrown `Error`'s message, or the fixed unknown-error text for any other value, and the plan is untouched; loading is false on both paths |
| `Application.App.HandleReset` | App.tsx:31-36 | whatever the prior state, the plan and the error are cleared, loading is false and the form is shown |
| `Application.PlanTrip` | App.tsx:16-29 | begin then success leaves no error and shows the itinerary view of exactly the returned plan under its own destination, and not the error view; begin then failure sets the error to the failure text, shows no plan, and shows the error view exactly when that text is non-empty |
| `Application.LateSettlementAfterReset` | App.tsx:31-36 | a success that settles after a reset still stores its plan, so the form and the itinerary view are shown together |

## Left out

- The itinerary service (services/geminiService.ts) is not part of this model. That covers the credential check at load time, the SDK client and network call, the prompt text, the response schema, `JSON.parse`, the shallow `itinerary` array check and the fixed failure message. Its outcome is the `Settlement` given to the settle step.
- components/InterestTag.tsx and components/LoadingSpinner.tsx are not part of this model. They only render markup, and the tag forwards `onToggle(interest)`, which is `Form.ToggleInterest`.
- Layout, styling, the SVG icons in the icon table and the footer's current year are presentation only.
- The React runtime is not modelled: state-update batching, re-rendering and unmounting. A fresh form after a reset corresponds to a new `Form`. The `await` is two explicit steps.
- React's `key={day.day}` on day sections is a reconciliation hint and is not modelled.
- The budget and interest option lists come from a constants file that is not part of this model. The default budget is a constructor parameter.
- The `location` field of an activity is kept as an unconstrained field. Nothing reads it.
- `Types.ItineraryDay.day` is an `int` and `Types.Location` holds two `real`s. JavaScript `number` also allows fractions (for `day`), NaN and infinities. Nothing in the model reads these fields, so the narrowing has no effect on any contract.
- Rendering assumes a well-shaped plan. The real plan is the parsed service response after only a check that `itinerary` is an array. A day without `activities`, or an activity whose `description` is not a string, would make the view throw while rendering; the typed `ItineraryPlan` here cannot express such a plan.
- `ItineraryDisplay.Lower`: lower-cases ASCII `A`-`Z` only. Full Unicode `toLowerCase` can also map some non-ASCII letters to ASCII ones (the Kelvin sign to `k`), which could create a keyword hit the model does not see.
- `PlannerForm.IsWhitespace` is the ECMAScript white-space and line-terminator set written out. Later additions to the Unicode space-separator category are not tracked.
- `e.preventDefault()` in the submit handler only stops the browser's own page navigation and is not modelled.
- The wiring from the form's `onPlanTrip` to the screen's plan-trip handler is not modelled as one step. The form logs what it hands on, and the screen logs what it sends.
