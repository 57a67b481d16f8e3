/** The language-model side of the backend: the intent classifier
    `is_location_query` and the query refiner `refine_search_query`.
    The model call `query_llm` itself is a parameter `llm`: it maps a prompt
    to the reply text, or to the message of the exception it raised. */
module LlmHandler {
  import opened Wrappers
  import opened Text

  /** One of the classifier's fixed regular expressions, read without regex
      machinery: either a literal phrase, or `(a1|a2|..).*(b1|b2|..)`, a word
      of `first` followed later on the same line by a word of `second`. */
  datatype Pattern =
    | Phrase(text: string)
    | Gap(first: seq<string>, second: seq<string>)

  /** `where.*(eat|go|find|stay)` */
  const WhereVerb: Pattern := Gap(["where"], ["eat", "go", "find", "stay"])
  /** `(restaurant|cafe|hotel).*near` */
  const VenueNear: Pattern := Gap(["restaurant", "cafe", "hotel"], ["near"])
  /** `directions to` */
  const DirectionsTo: Pattern := Phrase("directions to")

  /** The classifier's patterns, in the order they are tried. */
  const Patterns: seq<Pattern> := [WhereVerb, VenueNear, DirectionsTo]

  /** No newline in `s[lo..hi]`: Python's `.` matches every character but `\n`. */
  predicate NoNewline(s: string, lo: int, hi: int)
    requires 0 <= lo <= hi <= |s|
  {
    forall k :: lo <= k < hi ==> s[k] != '\n'
  }

  // ---------------------------------------------------------------------
  // What a match is: keyword positions, stated without any search procedure

  /** `first[x]` starts at `i`, `second[y]` starts at `j` at or after the end
      of `first[x]`, and no newline lies between the two. */
  predicate GapAt(s: string, first: seq<string>, second: seq<string>, i: int, x: int, j: int, y: int)
  {
    0 <= x < |first| && OccursAt(s, i, first[x]) && TailAt(s, i + |first[x]|, second, j, y)
  }

  /** The wildcard of `.*(ws)` covers `s[j..k]` and `ws[y]` starts at `k`. */
  predicate TailAt(s: string, j: int, ws: seq<string>, k: int, y: int)
  {
    0 <= j <= k && 0 <= y < |ws| && OccursAt(s, k, ws[y]) && NoNewline(s, j, k)
  }

  /** Pattern `p` matches `s` at start index `i`. */
  ghost predicate MatchAt(p: Pattern, s: string, i: int)
  {
    match p
    case Phrase(w) => OccursAt(s, i, w)
    case Gap(first, second) => exists x, j, y :: GapAt(s, first, second, i, x, j, y)
  }

  /** `re.search(p, s)` succeeds: the match may start anywhere (no anchors). */
  ghost predicate Matches(p: Pattern, s: string)
  {
    exists i :: MatchAt(p, s, i)
  }

  lemma MatchAtInBounds(p: Pattern, s: string, i: int)
    requires MatchAt(p, s, i)
    ensures 0 <= i <= |s|
  {
  }

  // ---------------------------------------------------------------------
  // The search procedure: try every start position, as `re.search` does

  /** Some word of `ws` from index `y0` on starts at `j`. */
  function WordAt(s: string, j: int, ws: seq<string>, y0: nat): (r: bool)
    ensures r <==> exists y :: y0 <= y < |ws| && OccursAt(s, j, ws[y])
    decreases |ws| - y0
  {
    if y0 >= |ws| then false
    else OccursAt(s, j, ws[y0]) || WordAt(s, j, ws, y0 + 1)
  }

  /** Moving the wildcard's start one character on, past a character that is
      not a newline, loses no match when no word starts right there. */
  lemma TailStep(s: string, j: int, ws: seq<string>)
    requires 0 <= j < |s| && s[j] != '\n' && !WordAt(s, j, ws, 0)
    ensures forall k, y :: TailAt(s, j, ws, k, y) <==> TailAt(s, j + 1, ws, k, y)
  {
  }

  /** With a newline (or the end of `s`) at `j`, only a match at `j` itself remains. */
  lemma TailStop(s: string, j: int, ws: seq<string>)
    requires 0 <= j <= |s| && (j == |s| || s[j] == '\n')
    ensures forall k, y :: TailAt(s, j, ws, k, y) ==> k == j
  {
  }

  /** `.*(ws)` matches with the wildcard starting at `j`. */
  function TailFrom(s: string, j: int, ws: seq<string>): (r: bool)
    requires 0 <= j <= |s|
    ensures r <==> exists k, y :: TailAt(s, j, ws, k, y)
    decreases |s| - j
  {
    if WordAt(s, j, ws, 0) then
      var y :| 0 <= y < |ws| && OccursAt(s, j, ws[y]);
      assert TailAt(s, j, ws, j, y);
      true
    else if j == |s| || s[j] == '\n' then
      TailStop(s, j, ws);
      false
    else
      var r := TailFrom(s, j + 1, ws);
      TailStep(s, j, ws);
      assert r ==> exists k, y :: TailAt(s, j, ws, k, y) by {
        if r {
          var k, y :| TailAt(s, j + 1, ws, k, y);
          assert TailAt(s, j, ws, k, y);
        }
      }
      r
  }

  /** A word of `first` from index `x0` on starts at `i` and the rest of the
      pattern matches after it. */
  function GapFrom(s: string, i: int, first: seq<string>, second: seq<string>, x0: nat): (r: bool)
    requires 0 <= i <= |s|
    ensures r <==> exists x, j, y :: x0 <= x && GapAt(s, first, second, i, x, j, y)
    decreases |first| - x0
  {
    if x0 >= |first| then false
    else if OccursAt(s, i, first[x0]) && TailFrom(s, i + |first[x0]|, second) then
      var j, y :| TailAt(s, i + |first[x0]|, second, j, y);
      assert GapAt(s, first, second, i, x0, j, y);
      true
    else
      GapFrom(s, i, first, second, x0 + 1)
  }

  /** Pattern `p` matches at start index `i`. */
  function MatchHere(p: Pattern, s: string, i: int): (r: bool)
    requires 0 <= i <= |s|
    ensures r <==> MatchAt(p, s, i)
  {
    match p
    case Phrase(w) => OccursAt(s, i, w)
    case Gap(first, second) => GapFrom(s, i, first, second, 0)
  }

  /** Pattern `p` matches at some start index at or after `i`. */
  function SearchFrom(p: Pattern, s: string, i: int): (r: bool)
    requires 0 <= i <= |s|
    ensures r <==> exists k :: i <= k && MatchAt(p, s, k)
    decreases |s| - i
  {
    if MatchHere(p, s, i) then true
    else if i == |s| then
      assert forall k :: i <= k && MatchAt(p, s, k) ==> k == i by {
        forall k | i <= k && MatchAt(p, s, k) ensures k == i { MatchAtInBounds(p, s, k); }
      }
      false
    else
      SearchFrom(p, s, i + 1)
  }

  /** `re.search(p, s) is not None`. */
  function Search(p: Pattern, s: string): (r: bool)
    ensures r <==> Matches(p, s)
  {
    var r := SearchFrom(p, s, 0);
    assert forall k :: MatchAt(p, s, k) ==> 0 <= k by {
      forall k | MatchAt(p, s, k) ensures 0 <= k { MatchAtInBounds(p, s, k); }
    }
    r
  }

  /** `any(re.search(p, s) for p in ps[k0:])`. */
  function AnySearch(ps: seq<Pattern>, s: string, k0: nat): (r: bool)
    ensures r <==> exists k :: k0 <= k < |ps| && Matches(ps[k], s)
    decreases |ps| - k0
  {
    if k0 >= |ps| then false else Search(ps[k0], s) || AnySearch(ps, s, k0 + 1)
  }

  /** The classifier's intended verdict: one of the three patterns matches
      the lower-cased prompt. */
  ghost predicate LocationIntent(prompt: string)
  {
    Matches(WhereVerb, Lower(prompt)) || Matches(VenueNear, Lower(prompt)) || Matches(DirectionsTo, Lower(prompt))
  }

  /** `is_location_query`. */
  function IsLocationQuery(prompt: string): (r: bool)
    ensures r == LocationIntent(prompt)
  {
    var r := AnySearch(Patterns, Lower(prompt), 0);
    assert Patterns[0] == WhereVerb && Patterns[1] == VenueNear && Patterns[2] == DirectionsTo;
    r
  }

  // ---------------------------------------------------------------------
  // Properties of the classifier

  /** Pattern 1 spelled out: "where" at `i`, a verb at `j >= i + 5`, no newline between. */
  lemma WhereVerbIsLocation(prompt: string, i: int, j: int, y: int)
    requires 0 <= y < 4 && OccursAt(Lower(prompt), i, "where")
    requires OccursAt(Lower(prompt), j, ["eat", "go", "find", "stay"][y])
    requires i + 5 <= j && NoNewline(Lower(prompt), i + 5, j)
    ensures IsLocationQuery(prompt)
  {
    assert GapAt(Lower(prompt), WhereVerb.first, WhereVerb.second, i, 0, j, y);
    assert MatchAt(WhereVerb, Lower(prompt), i);
  }

  /** "Where can I eat sushi tonight?" asks for a place: "where", then "eat". */
  lemma SushiPromptIsLocation()
    ensures IsLocationQuery("Where can I eat sushi tonight?")
  {
    assert Lower("Where can I eat sushi tonight?") == "where can i eat sushi tonight?";
    WhereVerbIsLocation("Where can I eat sushi tonight?", 0, 12, 0);
  }

  /** A venue word followed later on the same line by "near" is a location query. */
  lemma VenueNearIsLocation(prompt: string, i: int, x: int, j: int)
    requires 0 <= x < 3 && OccursAt(Lower(prompt), i, ["restaurant", "cafe", "hotel"][x])
    requires OccursAt(Lower(prompt), j, "near")
    requires i + |["restaurant", "cafe", "hotel"][x]| <= j
    requires NoNewline(Lower(prompt), i + |["restaurant", "cafe", "hotel"][x]|, j)
    ensures IsLocationQuery(prompt)
  {
    assert GapAt(Lower(prompt), VenueNear.first, VenueNear.second, i, x, j, 0);
    assert MatchAt(VenueNear, Lower(prompt), i);
  }

  /** Any prompt that mentions "directions to", in any letter case, is a location query. */
  lemma DirectionsToIsLocation(prompt: string)
    requires Contains(Lower(prompt), "directions to")
    ensures IsLocationQuery(prompt)
  {
    var i :| OccursAt(Lower(prompt), i, "directions to");
    assert MatchAt(DirectionsTo, Lower(prompt), i);
  }

  /** Every match starts with one of the five leading keywords. */
  lemma MatchNeedsKeyword(p: Pattern, s: string)
    requires p in Patterns && Matches(p, s)
    ensures Contains(s, "where") || Contains(s, "restaurant") || Contains(s, "cafe")
            || Contains(s, "hotel") || Contains(s, "directions to")
  {
  }

  /** A prompt with none of "where", "restaurant", "cafe", "hotel" and
      "directions to" (after lower-casing) is never a location query. */
  lemma NoKeywordNotLocation(prompt: string)
    requires !Contains(Lower(prompt), "where") && !Contains(Lower(prompt), "restaurant")
    requires !Contains(Lower(prompt), "cafe") && !Contains(Lower(prompt), "hotel")
    requires !Contains(Lower(prompt), "directions to")
    ensures !IsLocationQuery(prompt)
  {
  }

  /** The classifier ignores letter case. */
  lemma CaseInsensitive(prompt: string)
    ensures LocationIntent(prompt) == LocationIntent(Lower(prompt))
  {
    LowerIdempotent(prompt);
  }

  /** A match survives text added on either side, moving by the length of the prefix. */
  lemma {:induction false} MatchAtShift(p: Pattern, s: string, i: int, pre: string, post: string)
    requires MatchAt(p, s, i)
    ensures MatchAt(p, pre + s + post, |pre| + i)
  {
    var t := pre + s + post;
    match p
    case Phrase(w) =>
      OccursAtShift(s, i, w, pre, post);
    case Gap(first, second) =>
      var x, j, y :| GapAt(s, first, second, i, x, j, y);
      OccursAtShift(s, i, first[x], pre, post);
      OccursAtShift(s, j, second[y], pre, post);
      forall k | |pre| + i + |first[x]| <= k < |pre| + j ensures t[k] != '\n' {
        assert t[k] == s[k - |pre|];
      }
      assert GapAt(t, first, second, |pre| + i, x, |pre| + j, y);
  }

  lemma MatchesShift(p: Pattern, s: string, pre: string, post: string)
    requires Matches(p, s)
    ensures Matches(p, pre + s + post)
  {
    var i :| MatchAt(p, s, i);
    MatchAtShift(p, s, i, pre, post);
  }

  /** The searches are unanchored: a location query stays one whatever text
      is put before or after it. */
  lemma Unanchored(prompt: string, extra: string)
    requires LocationIntent(prompt)
    ensures LocationIntent(prompt + extra) && LocationIntent(extra + prompt)
  {
    var s := Lower(prompt);
    LowerAppend(prompt, extra);
    LowerAppend(extra, prompt);
    assert Lower(prompt + extra) == [] + s + Lower(extra);
    assert Lower(extra + prompt) == Lower(extra) + s + [];
    forall p | p in Patterns && Matches(p, s)
      ensures Matches(p, Lower(prompt + extra)) && Matches(p, Lower(extra + prompt))
    {
      MatchesShift(p, s, [], Lower(extra));
      MatchesShift(p, s, Lower(extra), []);
    }
  }

  // ---------------------------------------------------------------------
  // refine_search_query

  const RefinePrefix := "Extract a concise Google Places search query from: '"
  const RefineSuffix := "'. E.g., 'sushi restaurants in Tokyo'. Output only the query."

  /** The instruction sent to the model: the user's prompt quoted verbatim
      between a fixed lead-in and a fixed closing. */
  function RefinePrompt(prompt: string): (r: string)
    ensures |r| == |RefinePrefix| + |prompt| + |RefineSuffix|
    ensures r[..|RefinePrefix|] == RefinePrefix && r[|r| - |RefineSuffix|..] == RefineSuffix
    ensures r[|RefinePrefix|..|r| - |RefineSuffix|] == prompt
  {
    RefinePrefix + prompt + RefineSuffix
  }

  /** Different prompts give different instructions: the prompt is never altered. */
  lemma RefinePromptInjective(a: string, b: string)
    requires RefinePrompt(a) == RefinePrompt(b)
    ensures a == b
  {
  }

  /** `refine_search_query`: the model's answer to the instruction, stripped;
      an exception of the model call propagates. */
  function RefineSearchQuery(prompt: string, llm: string -> Result<string>): (r: Result<string>)
    ensures llm(RefinePrompt(prompt)).Err? ==> r == Err(llm(RefinePrompt(prompt)).msg)
    ensures llm(RefinePrompt(prompt)).Ok? ==> r.Ok? && IsStripOf(r.value, llm(RefinePrompt(prompt)).value)
  {
    match llm(RefinePrompt(prompt))
    case Ok(answer) => Ok(Strip(answer))
    case Err(e) => Err(e)
  }
}
