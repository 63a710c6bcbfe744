/** The planner form (components/PlannerForm.tsx): its five state fields, the
    interest toggle, and the submit handler that validates the inputs and hands
    them on exactly once. */
module PlannerForm {
  import opened Types

  const DestinationMissing: string := "Please enter a destination."
  const InterestsMissing: string := "Please select at least one interest."

  // ---------------------------------------------------------------------------
  // `String.prototype.trim`
  // ---------------------------------------------------------------------------

  /** The characters `trim` removes: ECMAScript white space (tab, vertical tab,
      form feed, space, no-break space, byte order mark and the Unicode space
      separators) and line terminators. */
  predicate IsWhitespace(c: char) {
    c == '\t' || c == '\n' || c == '\U{000B}' || c == '\U{000C}' || c == '\r' || c == ' ' ||
    c == '\U{00A0}' || c == '\U{1680}' || ('\U{2000}' <= c <= '\U{200A}') ||
    c == '\U{2028}' || c == '\U{2029}' || c == '\U{202F}' || c == '\U{205F}' ||
    c == '\U{3000}' || c == '\U{FEFF}'
  }

  /** Drops leading white space. */
  function TrimStart(s: string): (r: string)
    ensures |r| <= |s|
    decreases |s|
  {
    if s != [] && IsWhitespace(s[0]) then TrimStart(s[1..]) else s
  }

  /** Drops trailing white space. */
  function TrimEnd(s: string): (r: string)
    ensures |r| <= |s|
    decreases |s|
  {
    if s != [] && IsWhitespace(s[|s| - 1]) then TrimEnd(s[..|s| - 1]) else s
  }

  /** The result of `TrimStart` is a suffix of its input that does not start
      with white space, and everything it dropped is white space. */
  lemma {:induction false} TrimStartSpec(s: string)
    ensures TrimStart(s) == s[|s| - |TrimStart(s)|..]
    ensures forall i :: 0 <= i < |s| - |TrimStart(s)| ==> IsWhitespace(s[i])
    ensures TrimStart(s) == [] || !IsWhitespace(TrimStart(s)[0])
    decreases |s|
  {
    if s != [] && IsWhitespace(s[0]) {
      TrimStartSpec(s[1..]);
    }
  }

  /** The result of `TrimEnd` is a prefix of its input that does not end with
      white space, and everything it dropped is white space. */
  lemma {:induction false} TrimEndSpec(s: string)
    ensures TrimEnd(s) == s[..|TrimEnd(s)|]
    ensures forall i :: |TrimEnd(s)| <= i < |s| ==> IsWhitespace(s[i])
    ensures TrimEnd(s) == [] || !IsWhitespace(TrimEnd(s)[|TrimEnd(s)| - 1])
    decreases |s|
  {
    if s != [] && IsWhitespace(s[|s| - 1]) {
      TrimEndSpec(s[..|s| - 1]);
    }
  }

  /** `trim`: neither end of the result is white space. */
  function Trim(s: string): (r: string)
    ensures |r| <= |s|
    ensures r == [] || (!IsWhitespace(r[0]) && !IsWhitespace(r[|r| - 1]))
  {
    TrimStartSpec(s);
    TrimEndSpec(TrimStart(s));
    TrimEnd(TrimStart(s))
  }

  /** `trim` removes exactly a white-space prefix and a white-space suffix:
      the result is the part of the input between them. */
  lemma TrimSpec(s: string)
    ensures var a, r := |s| - |TrimStart(s)|, Trim(s);
      a + |r| <= |s| && r == s[a..a + |r|] &&
      (forall i :: 0 <= i < a ==> IsWhitespace(s[i])) &&
      (forall i :: a + |r| <= i < |s| ==> IsWhitespace(s[i]))
  {
    TrimStartSpec(s);
    TrimEndSpec(TrimStart(s));
  }

  /** `!s.trim()`: nothing is left once white space is trimmed, which happens
      exactly when every character is white space (the empty string included). */
  predicate IsBlank(s: string)
    ensures IsBlank(s) <==> forall i :: 0 <= i < |s| ==> IsWhitespace(s[i])
  {
    var t := TrimStart(s);
    TrimStartSpec(s);
    TrimEndSpec(t);
    assert (exists i :: 0 <= i < |s| && !IsWhitespace(s[i])) ==> t != [] && !IsWhitespace(t[0]);
    Trim(s) == ""
  }

  // ---------------------------------------------------------------------------
  // `toggleInterest`
  // ---------------------------------------------------------------------------

  /** `prev.filter(i => i !== interest)`. */
  function RemoveAll(xs: seq<string>, x: string): (r: seq<string>)
    ensures x !in r
    ensures forall y :: y != x ==> (y in r <==> y in xs)
    ensures |r| <= |xs|
    decreases |xs|
  {
    if xs == [] then []
    else (if xs[0] == x then [] else [xs[0]]) + RemoveAll(xs[1..], x)
  }

  /** The filter keeps the relative order of what it keeps: it distributes over
      concatenation, so it is fixed by what it does to one element. */
  lemma {:induction false} RemoveAllAppend(a: seq<string>, b: seq<string>, x: string)
    ensures RemoveAll(a + b, x) == RemoveAll(a, x) + RemoveAll(b, x)
    decreases |a|
  {
    if a != [] {
      assert (a + b)[1..] == a[1..] + b;
      RemoveAllAppend(a[1..], b, x);
    } else {
      assert a + b == b;
    }
  }

  /** Filtering out something absent changes nothing. */
  lemma {:induction false} RemoveAllAbsent(xs: seq<string>, x: string)
    requires x !in xs
    ensures RemoveAll(xs, x) == xs
    decreases |xs|
  {
    if xs != [] {
      assert xs[0] != x;
      assert x !in xs[1..];
      RemoveAllAbsent(xs[1..], x);
    }
  }

  /** The filter drops every copy of `x` and keeps every other element as
      often as it occurred. */
  lemma {:induction false} RemoveAllMultiset(xs: seq<string>, x: string)
    ensures multiset(RemoveAll(xs, x)) == multiset(xs)[x := 0]
    decreases |xs|
  {
    if xs != [] {
      RemoveAllMultiset(xs[1..], x);
      assert xs == [xs[0]] + xs[1..];
    }
  }

  /** `toggleInterest(interest)`: filter it out if present, otherwise append it. */
  function Toggle(interests: seq<string>, interest: string): (r: seq<string>)
    ensures interest in r <==> interest !in interests
    ensures forall y :: y != interest ==> (y in r <==> y in interests)
  {
    if interest in interests then RemoveAll(interests, interest) else interests + [interest]
  }

  /** Toggling a present interest removes every occurrence and keeps every
      other interest as often as it occurred; toggling an absent one appends it
      at the end and leaves the rest unchanged. */
  lemma ToggleShape(interests: seq<string>, interest: string)
    ensures interest in interests ==>
      multiset(Toggle(interests, interest)) == multiset(interests)[interest := 0]
    ensures interest !in interests ==> Toggle(interests, interest) == interests + [interest]
  {
    RemoveAllMultiset(interests, interest);
  }

  /** Toggling the same absent interest twice gives back the original list. */
  lemma ToggleTwiceAbsent(interests: seq<string>, interest: string)
    requires interest !in interests
    ensures Toggle(Toggle(interests, interest), interest) == interests
  {
    RemoveAllAppend(interests, [interest], interest);
    RemoveAllAbsent(interests, interest);
    assert RemoveAll([interest], interest) == [];
  }

  predicate NoDuplicates(xs: seq<string>) {
    forall i, j :: 0 <= i < j < |xs| ==> xs[i] != xs[j]
  }

  lemma {:induction false} RemoveAllNoDuplicates(xs: seq<string>, x: string)
    requires NoDuplicates(xs)
    ensures NoDuplicates(RemoveAll(xs, x))
    decreases |xs|
  {
    if xs != [] {
      RemoveAllNoDuplicates(xs[1..], x);
      var rest := RemoveAll(xs[1..], x);
      assert xs[0] !in rest;
    }
  }

  /** A list built by toggles alone never holds an interest twice. */
  lemma ToggleNoDuplicates(interests: seq<string>, interest: string)
    requires NoDuplicates(interests)
    ensures NoDuplicates(Toggle(interests, interest))
  {
    if interest in interests {
      RemoveAllNoDuplicates(interests, interest);
    } else {
      var r := interests + [interest];
      forall i, j | 0 <= i < j < |r| ensures r[i] != r[j] {
        if j == |interests| {
          assert r[i] in interests;
        }
      }
    }
  }

  // ---------------------------------------------------------------------------
  // `handleSubmit` validation
  // ---------------------------------------------------------------------------

  /** The message the submit handler shows, or None when it hands the inputs
      on. A blank destination is reported whatever the interests; an empty
      interest list only when the destination has a non-white-space character. */
  function SubmitError(destination: string, interests: seq<string>): (r: Option<string>)
    ensures r == Some(DestinationMissing) <==>
      forall i :: 0 <= i < |destination| ==> IsWhitespace(destination[i])
    ensures r == Some(InterestsMissing) <==>
      (exists i :: 0 <= i < |destination| && !IsWhitespace(destination[i])) && interests == []
    ensures r == None <==>
      (exists i :: 0 <= i < |destination| && !IsWhitespace(destination[i])) && interests != []
  {
    if IsBlank(destination) then Some(DestinationMissing)
    else if |interests| == 0 then Some(InterestsMissing)
    else None
  }

  // ---------------------------------------------------------------------------
  // The form's state
  // ---------------------------------------------------------------------------

  class Form {
    var destination: string
    var budget: string
    var interests: seq<string>
    var error: Option<string>
    var isSubmitting: bool
    /** Every `onPlanTrip` call the form has made, oldest first. */
    ghost var planTripCalls: seq<PlanRequest>

    /** The form never hands on more than one request, and it has handed one
        on exactly when the submit button is disabled. */
    ghost predicate Valid()
      reads this
    {
      |planTripCalls| <= 1 && (isSubmitting <==> |planTripCalls| == 1) &&
      NoDuplicates(interests)
    }

    /** Initial state; `defaultBudget` stands for the second budget option. */
    constructor (defaultBudget: string)
      ensures Valid()
      ensures destination == "" && budget == defaultBudget && interests == []
      ensures error == None && !isSubmitting && planTripCalls == []
    {
      destination := "";
      budget := defaultBudget;
      interests := [];
      error := None;
      isSubmitting := false;
      planTripCalls := [];
    }

    /** `disabled={isSubmitting}`: in a valid form the submit button is
        enabled exactly while nothing has been handed on. */
    predicate SubmitEnabled()
      reads this
      ensures Valid() ==> (SubmitEnabled() <==> planTripCalls == [])
    {
      !isSubmitting
    }

    /** Typing in the destination field. */
    method SetDestination(value: string)
      requires Valid()
      modifies this`destination
      ensures Valid() && destination == value
    {
      destination := value;
    }

    /** Choosing a budget tier. */
    method SetBudget(value: string)
      requires Valid()
      modifies this`budget
      ensures Valid() && budget == value
    {
      budget := value;
    }

    /** Clicking an interest tag. */
    method ToggleInterest(interest: string)
      requires Valid()
      modifies this`interests
      ensures Valid()
      ensures interests == Toggle(old(interests), interest)
      ensures interest in interests <==> interest !in old(interests)
    {
      ToggleNoDuplicates(interests, interest);
      interests := Toggle(interests, interest);
    }

    /** `handleSubmit`: two ordered early returns, then the hand-off. The
        destination is handed on untrimmed. */
    method HandleSubmit()
      modifies this`error, this`isSubmitting, this`planTripCalls
      ensures error == SubmitError(destination, interests)
      ensures error.Some? ==> isSubmitting == old(isSubmitting) && planTripCalls == old(planTripCalls)
      ensures error.None? ==>
        isSubmitting && planTripCalls == old(planTripCalls) + [PlanRequest(destination, budget, interests)]
      ensures old(isSubmitting) ==> isSubmitting
    {
      if IsBlank(destination) {
        error := Some(DestinationMissing);
        return;
      }
      if |interests| == 0 {
        error := Some(InterestsMissing);
        return;
      }
      error := None;
      isSubmitting := true;
      planTripCalls := planTripCalls + [PlanRequest(destination, budget, interests)];
    }

    /** Pressing the submit button: a disabled button does nothing, an enabled
        one runs the submit handler. */
    method SubmitForm()
      requires Valid()
      modifies this`error, this`isSubmitting, this`planTripCalls
      ensures Valid()
      ensures old(isSubmitting) ==> isSubmitting && planTripCalls == old(planTripCalls) && error == old(error)
      ensures !old(isSubmitting) ==> error == SubmitError(destination, interests)
      ensures !old(isSubmitting) && error.Some? ==> !isSubmitting && planTripCalls == old(planTripCalls)
      ensures !old(isSubmitting) && error.None? ==>
        isSubmitting && planTripCalls == [PlanRequest(destination, budget, interests)]
    {
      if SubmitEnabled() {
        HandleSubmit();
      }
    }
  }

  /** A client of the form: after one valid hand-off, further presses of the
      button change nothing and never call `onPlanTrip` again. */
  method SubmitTwice(form: Form)
    requires form.Valid() && form.SubmitEnabled()
    requires SubmitError(form.destination, form.interests).None?
    modifies form
    ensures form.Valid() && form.isSubmitting
    ensures form.planTripCalls == [PlanRequest(form.destination, form.budget, form.interests)]
  {
    form.SubmitForm();
    form.SubmitForm();
  }
}
