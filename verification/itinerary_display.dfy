/** The itinerary view (components/ItineraryDisplay.tsx): the keyword
    classifier that picks an activity's icon, and the walk that turns a plan
    into one section per day and one entry per activity. */
module ItineraryDisplay {
  import opened Types

  /** The five keys of the icon table; the SVG icons themselves are not modelled. */
  datatype Category = Food | Culture | Adventure | Nightlife | Default

  // ---------------------------------------------------------------------------
  // String primitives: `toLowerCase` (ASCII letters only) and `includes`
  // ---------------------------------------------------------------------------

  predicate IsUpper(c: char) { 'A' <= c <= 'Z' }

  function LowerChar(c: char): (r: char)
    ensures !IsUpper(r)
    ensures IsUpper(c) ==> r as int == c as int + 32
    ensures !IsUpper(c) ==> r == c
  {
    if IsUpper(c) then (c as int + 32) as char else c
  }

  /** `toLowerCase`, restricted to ASCII upper-case letters. */
  function Lower(s: string): (r: string)
    ensures |r| == |s|
    ensures forall i :: 0 <= i < |r| ==> !IsUpper(r[i])
    ensures forall i :: 0 <= i < |s| && !IsUpper(s[i]) ==> r[i] == s[i]
    ensures forall i :: 0 <= i < |s| && IsUpper(s[i]) ==> r[i] as int == s[i] as int + 32
  {
    seq(|s|, i requires 0 <= i < |s| => LowerChar(s[i]))
  }

  /** Lowering an already lowered string changes nothing. */
  lemma LowerIdempotent(s: string)
    ensures Lower(Lower(s)) == Lower(s)
  {
    var t := Lower(s);
    assert forall i :: 0 <= i < |t| ==> Lower(t)[i] == t[i];
  }

  predicate StartsWith(s: string, k: string) {
    |k| <= |s| && s[..|k|] == k
  }

  /** `s.includes(k)`: some suffix of `s` starts with `k` (so `k == ""` always matches). */
  predicate Includes(s: string, k: string)
    ensures k == [] ==> Includes(s, k)
    ensures Includes(s, k) ==> |k| <= |s|
    decreases |s|
  {
    StartsWith(s, k) || (|s| > 0 && Includes(s[1..], k))
  }

  /** `k` occurs in `s` starting at position `i`. */
  predicate OccursAt(s: string, k: string, i: int) {
    0 <= i <= |s| - |k| && s[i..i + |k|] == k
  }

  /** `includes` is exactly substring occurrence at some position. */
  lemma {:induction false} IncludesAt(s: string, k: string)
    ensures Includes(s, k) <==> exists i :: OccursAt(s, k, i)
    decreases |s|
  {
    if StartsWith(s, k) {
      assert OccursAt(s, k, 0);
    } else if |s| == 0 {
      assert forall i :: OccursAt(s, k, i) ==> i == 0 && |k| == 0;
    } else {
      IncludesAt(s[1..], k);
      var t := s[1..];
      if Includes(t, k) {
        var i :| OccursAt(t, k, i);
        assert s[i + 1..i + 1 + |k|] == t[i..i + |k|];
        assert OccursAt(s, k, i + 1);
      }
      if exists i :: OccursAt(s, k, i) {
        var i :| OccursAt(s, k, i);
        assert i != 0;
        assert t[i - 1..i - 1 + |k|] == s[i..i + |k|];
        assert OccursAt(t, k, i - 1);
      }
    }
  }

  /** A match found in a part of a string is a match in the whole string. */
  lemma {:induction false} IncludesInfix(pre: string, s: string, post: string, k: string)
    requires Includes(s, k)
    ensures Includes(pre + s + post, k)
  {
    IncludesAt(s, k);
    var i :| OccursAt(s, k, i);
    var w := pre + s + post;
    assert w[|pre| + i..|pre| + i + |k|] == s[i..i + |k|];
    assert OccursAt(w, k, |pre| + i);
    IncludesAt(w, k);
  }

  /** A non-empty keyword can only occur in a string holding its first character. */
  lemma IncludesFirstChar(s: string, k: string)
    requires |k| > 0 && Includes(s, k)
    ensures k[0] in s
  {
    IncludesAt(s, k);
    var i :| OccursAt(s, k, i);
    assert s[i] == s[i..i + |k|][0];
  }

  // ---------------------------------------------------------------------------
  // Keyword lists, tested in this order
  // ---------------------------------------------------------------------------

  const FoodKeywords: seq<string> := ["eat", "food", "lunch", "dinner", "cafe", "market"]
  const CultureKeywords: seq<string> := ["museum", "art", "gallery", "history", "temple", "shrine"]
  const AdventureKeywords: seq<string> := ["hike", "park", "view", "nature", "explore", "walk"]
  const NightlifeKeywords: seq<string> := ["bar", "club", "night", "music"]

  /** The `||` chain `desc.includes(k0) || desc.includes(k1) || ...`, left to
      right: it holds exactly when some keyword of the list occurs in `desc`. */
  predicate IncludesAny(desc: string, keywords: seq<string>)
    ensures IncludesAny(desc, keywords) <==> exists k :: k in keywords && Includes(desc, k)
    decreases |keywords|
  {
    if |keywords| == 0 then false
    else
      assert keywords[0] in keywords;
      assert forall k :: k in keywords <==> k == keywords[0] || k in keywords[1..];
      Includes(desc, keywords[0]) || IncludesAny(desc, keywords[1..])
  }

  /** Some keyword of the list occurs in the lower-cased description. */
  ghost predicate Hits(description: string, keywords: seq<string>) {
    exists k :: k in keywords && Includes(Lower(description), k)
  }

  /** `getActivityIcon`: lower-case the description, then the first keyword
      list with a substring hit decides; no hit gives the default icon. Each
      category is chosen exactly when its list hits and no earlier list does. */
  function Classify(description: string): (c: Category)
    ensures c == Food <==> Hits(description, FoodKeywords)
    ensures c == Culture <==>
      !Hits(description, FoodKeywords) && Hits(description, CultureKeywords)
    ensures c == Adventure <==>
      !Hits(description, FoodKeywords) && !Hits(description, CultureKeywords) &&
      Hits(description, AdventureKeywords)
    ensures c == Nightlife <==>
      !Hits(description, FoodKeywords) && !Hits(description, CultureKeywords) &&
      !Hits(description, AdventureKeywords) && Hits(description, NightlifeKeywords)
    ensures c == Default <==>
      !Hits(description, FoodKeywords) && !Hits(description, CultureKeywords) &&
      !Hits(description, AdventureKeywords) && !Hits(description, NightlifeKeywords)
  {
    var desc := Lower(description);
    if IncludesAny(desc, FoodKeywords) then Food
    else if IncludesAny(desc, CultureKeywords) then Culture
    else if IncludesAny(desc, AdventureKeywords) then Adventure
    else if IncludesAny(desc, NightlifeKeywords) then Nightlife
    else Default
  }

  /** A food keyword anywhere in the description wins over every other keyword. */
  lemma FoodDominates(description: string, k: string)
    requires k in FoodKeywords && Includes(Lower(description), k)
    ensures Classify(description) == Food
  {
  }

  /** The classifier reads only the lower-cased description. */
  lemma ClassifyCaseInsensitive(a: string, b: string)
    requires Lower(a) == Lower(b)
    ensures Classify(a) == Classify(b)
  {
  }

  /** Classifying a lower-cased description gives the same category. */
  lemma ClassifyLowered(description: string)
    ensures Classify(Lower(description)) == Classify(description)
  {
    LowerIdempotent(description);
  }

  /** Matching is by substring, not by word: "eat" inside "Theater" makes it food. */
  lemma TheaterIsFood()
    ensures Classify("Evening at the Theater") == Food
  {
    var d := Lower("Evening at the Theater");
    assert d == "evening at the theater";
    assert Includes("eater", "eat");
    IncludesInfix("evening at the th", "eater", "", "eat");
    assert "evening at the th" + "eater" + "" == d;
  }

  /** "art" inside "Start" makes a description culture when no food keyword occurs. */
  lemma StartIsCulture()
    ensures Classify("Start") == Culture
  {
    var d := Lower("Start");
    assert d == "start";
    assert Includes("art", "art");
    IncludesInfix("st", "art", "", "art");
    assert "st" + "art" + "" == d;
    forall k | k in FoodKeywords && Includes(d, k)
      ensures false
    {
      IncludesFirstChar(d, k);
    }
  }

  // ---------------------------------------------------------------------------
  // The render walk
  // ---------------------------------------------------------------------------

  /** One timeline entry: the activity and the icon chosen for it. */
  datatype ActivityEntry = ActivityEntry(activity: ItineraryActivity, category: Category)

  /** One day section: the day (number, title, daily budget) and its entries. */
  datatype DaySection = DaySection(day: ItineraryDay, entries: seq<ActivityEntry>)

  /** The whole view: the heading destination and the day sections. */
  datatype ItineraryView = ItineraryView(heading: string, sections: seq<DaySection>)

  /** `day.activities.map(...)`: one entry per activity, in array order,
      each classified from its own description. */
  function RenderActivities(activities: seq<ItineraryActivity>): (entries: seq<ActivityEntry>)
    ensures |entries| == |activities|
    ensures forall j :: 0 <= j < |activities| ==>
      entries[j] == ActivityEntry(activities[j], Classify(activities[j].description))
    decreases |activities|
  {
    if activities == [] then []
    else [ActivityEntry(activities[0], Classify(activities[0].description))] + RenderActivities(activities[1..])
  }

  /** `plan.itinerary.map(...)`: one section per day, in array order. */
  function RenderDays(days: seq<ItineraryDay>): (sections: seq<DaySection>)
    ensures |sections| == |days|
    ensures forall i :: 0 <= i < |days| ==>
      sections[i].day == days[i] && |sections[i].entries| == |days[i].activities|
    ensures forall i, j :: 0 <= i < |days| && 0 <= j < |days[i].activities| ==>
      sections[i].entries[j] ==
        ActivityEntry(days[i].activities[j], Classify(days[i].activities[j].description))
    decreases |days|
  {
    if days == [] then []
    else [DaySection(days[0], RenderActivities(days[0].activities))] + RenderDays(days[1..])
  }

  /** `ItineraryDisplay({plan, destination})`: the heading shows the
      `destination` prop, then every day of the plan. */
  function Render(plan: ItineraryPlan, destination: string): (view: ItineraryView)
    ensures view.heading == destination
    ensures |view.sections| == |plan.itinerary|
    ensures forall i :: 0 <= i < |plan.itinerary| ==> view.sections[i].day == plan.itinerary[i]
  {
    ItineraryView(destination, RenderDays(plan.itinerary))
  }
}
