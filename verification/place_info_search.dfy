/**
 * Formatting of raw search results into `Title: URL` lines, with parked-domain
 * links filtered out (utils/place_info_search.py).
 *
 * The search back-ends are not called here: the structure a back-end returns is
 * an input, and the wrapper's plain-text answer (`run`) is an input too.
 */
module PlaceInfoSearch {
  import opened Wrappers
  import opened Text

  /** Parked or junk domains that show up for dead businesses. */
  const JunkDomains: seq<string> :=
    ["hugedomains.com", "dan.com", "afternic.com", "godaddy.com", "domainmarket.com", "sedo.com"]

  /** Greatest number of results looked at from each source, and kept in the output. */
  const MaxResults: nat := 5

  /** Lines kept when every formatted line looks like junk. */
  const JunkFallbackLines: nat := 2

  /** `any(domain in s for domain in domains)`. */
  function AnyDomainIn(s: string, domains: seq<string>): (b: bool)
    ensures b <==> exists k :: 0 <= k < |domains| && Occurs(s, domains[k])
  {
    if domains == [] then false
    else Contains(s, domains[0]) || AnyDomainIn(s, domains[1..])
  }

  /** `is_junk_link`: a missing or empty link is junk; otherwise a junk domain must occur in it, ignoring case. */
  function IsJunkLink(link: Option<string>): (junk: bool)
    ensures !Truthy(link) ==> junk
    ensures Truthy(link) ==>
      (junk <==> exists k :: 0 <= k < |JunkDomains| && Occurs(Lower(link.value), JunkDomains[k]))
  {
    if !Truthy(link) then true else AnyDomainIn(Lower(link.value), JunkDomains)
  }

  /** Junk is judged on what follows the last ": " of a formatted line. */
  predicate IsJunkLine(line: string)
  {
    IsJunkLink(Some(LastPiece(line, ": ")))
  }

  /** The `f"{title}: {link}"` line. */
  function FormatLine(title: string, link: string): string
  {
    title + ": " + link
  }

  /** One entry of `organic_results`. */
  datatype OrganicResult = OrganicResult(title: Option<string>, link: Option<string>)

  /** One entry of `local_results.places`; `website` is `links.website`. */
  datatype LocalPlace = LocalPlace(title: Option<string>, website: Option<string>, link: Option<string>)

  /** The part of the SerpAPI results dict the formatter reads; a missing key is an empty list. */
  datatype SerpResults = SerpResults(organic: seq<OrganicResult>, places: seq<LocalPlace>)

  /** The link a local place is shown with: its website when that is truthy, else its link. */
  function PlaceLink(p: LocalPlace): Option<string>
  {
    Or(p.website, p.link)
  }

  /** A result is formatted only when it has both a title and a link. */
  predicate OrganicUsable(r: OrganicResult)
  {
    Truthy(r.title) && Truthy(r.link)
  }

  predicate PlaceUsable(p: LocalPlace)
  {
    Truthy(p.title) && Truthy(PlaceLink(p))
  }

  function OrganicLine(r: OrganicResult): string
    requires OrganicUsable(r)
  {
    FormatLine(r.title.value, r.link.value)
  }

  function PlaceLine(p: LocalPlace): string
    requires PlaceUsable(p)
  {
    FormatLine(p.title.value, PlaceLink(p).value)
  }

  /** The lines the organic loop appends, in order. */
  function OrganicLines(rs: seq<OrganicResult>): seq<string>
  {
    if rs == [] then []
    else
      var last := rs[|rs| - 1];
      OrganicLines(rs[..|rs| - 1]) + (if OrganicUsable(last) then [OrganicLine(last)] else [])
  }

  /** The lines the local-places loop appends, in order. */
  function PlaceLines(ps: seq<LocalPlace>): seq<string>
  {
    if ps == [] then []
    else
      var last := ps[|ps| - 1];
      PlaceLines(ps[..|ps| - 1]) + (if PlaceUsable(last) then [PlaceLine(last)] else [])
  }

  /** `formatted_results`: the first five organic results, then the first five local places. */
  function SerpLines(results: SerpResults): seq<string>
  {
    OrganicLines(Take(results.organic, MaxResults)) + PlaceLines(Take(results.places, MaxResults))
  }

  /** The two loops of `_format_serp_results` that build `formatted_results`. */
  method CollectSerpLines(results: SerpResults) returns (formatted: seq<string>)
    ensures formatted == SerpLines(results)
  {
    formatted := [];
    var organic := Take(results.organic, MaxResults);
    var i := 0;
    while i < |organic|
      invariant 0 <= i <= |organic|
      invariant formatted == OrganicLines(organic[..i])
    {
      var res := organic[i];
      assert organic[..i + 1][..i] == organic[..i];
      if Truthy(res.title) && Truthy(res.link) {
        formatted := formatted + [FormatLine(res.title.value, res.link.value)];
      }
      i := i + 1;
    }
    assert organic[..i] == organic;
    var local := Take(results.places, MaxResults);
    var j := 0;
    while j < |local|
      invariant 0 <= j <= |local|
      invariant formatted == OrganicLines(organic) + PlaceLines(local[..j])
    {
      var res := local[j];
      assert local[..j + 1][..j] == local[..j];
      var link := Or(res.website, res.link);
      if Truthy(res.title) && Truthy(link) {
        formatted := formatted + [FormatLine(res.title.value, link.value)];
      }
      j := j + 1;
    }
    assert local[..j] == local;
  }

  /** `clean_results`: the formatted lines whose link is not junk, in order. */
  function Clean(lines: seq<string>): seq<string>
  {
    if lines == [] then []
    else (if IsJunkLine(lines[0]) then [] else [lines[0]]) + Clean(lines[1..])
  }

  /** The lines the formatter outputs once it has at least one formatted line. */
  function SelectedLines(formatted: seq<string>): seq<string>
  {
    var clean := Clean(formatted);
    if clean == [] then Take(formatted, JunkFallbackLines) else Take(clean, MaxResults)
  }

  /** The text returned once there is at least one formatted line. */
  function ChooseOutput(formatted: seq<string>): string
  {
    Join(SelectedLines(formatted), "\n")
  }

  /** `_format_serp_results`, given the results dict and the wrapper's plain answer. */
  method FormatSerpResults(results: SerpResults, plainAnswer: string) returns (out: string)
    ensures SerpLines(results) == [] ==> out == plainAnswer
    ensures SerpLines(results) != [] ==> out == ChooseOutput(SerpLines(results))
  {
    var formatted := CollectSerpLines(results);
    if formatted == [] {
      return plainAnswer;
    }
    var clean := Clean(formatted);
    if clean == [] {
      return Join(Take(formatted, JunkFallbackLines), "\n");
    }
    return Join(Take(clean, MaxResults), "\n");
  }

  // ---------------------------------------------------------------------------
  // Properties of the SerpAPI formatting

  lemma {:induction false} OrganicLinesBound(rs: seq<OrganicResult>)
    ensures |OrganicLines(rs)| <= |rs|
  {
    if rs != [] {
      OrganicLinesBound(rs[..|rs| - 1]);
    }
  }

  lemma {:induction false} PlaceLinesBound(ps: seq<LocalPlace>)
    ensures |PlaceLines(ps)| <= |ps|
  {
    if ps != [] {
      PlaceLinesBound(ps[..|ps| - 1]);
    }
  }

  /** At most five lines come from each source. */
  lemma SerpLinesBound(results: SerpResults)
    ensures |SerpLines(results)| <= 2 * MaxResults
  {
    OrganicLinesBound(Take(results.organic, MaxResults));
    PlaceLinesBound(Take(results.places, MaxResults));
  }

  /** A line comes from the organic results exactly when a usable result formats to it. */
  lemma {:induction false} OrganicLinesMembership(rs: seq<OrganicResult>, line: string)
    ensures line in OrganicLines(rs) <==>
      exists i :: 0 <= i < |rs| && OrganicUsable(rs[i]) && line == OrganicLine(rs[i])
  {
    if rs != [] {
      var init := rs[..|rs| - 1];
      OrganicLinesMembership(init, line);
      if line in OrganicLines(init) {
        var i :| 0 <= i < |init| && OrganicUsable(init[i]) && line == OrganicLine(init[i]);
        assert rs[i] == init[i];
      }
      if exists i :: 0 <= i < |rs| && OrganicUsable(rs[i]) && line == OrganicLine(rs[i]) {
        var i :| 0 <= i < |rs| && OrganicUsable(rs[i]) && line == OrganicLine(rs[i]);
        if i < |init| {
          assert init[i] == rs[i];
        }
      }
    }
  }

  /** A line comes from the local places exactly when a usable place formats to it. */
  lemma {:induction false} PlaceLinesMembership(ps: seq<LocalPlace>, line: string)
    ensures line in PlaceLines(ps) <==>
      exists i :: 0 <= i < |ps| && PlaceUsable(ps[i]) && line == PlaceLine(ps[i])
  {
    if ps != [] {
      var init := ps[..|ps| - 1];
      PlaceLinesMembership(init, line);
      if line in PlaceLines(init) {
        var i :| 0 <= i < |init| && PlaceUsable(init[i]) && line == PlaceLine(init[i]);
        assert ps[i] == init[i];
      }
      if exists i :: 0 <= i < |ps| && PlaceUsable(ps[i]) && line == PlaceLine(ps[i]) {
        var i :| 0 <= i < |ps| && PlaceUsable(ps[i]) && line == PlaceLine(ps[i]);
        if i < |init| {
          assert init[i] == ps[i];
        }
      }
    }
  }

  /** A local place is shown with its website when it has one, else with its link, else not at all. */
  lemma PlaceLinkPreference(p: LocalPlace)
    requires Truthy(p.title)
    ensures Truthy(p.website) ==> PlaceLines([p]) == [p.title.value + ": " + p.website.value]
    ensures !Truthy(p.website) && Truthy(p.link) ==> PlaceLines([p]) == [p.title.value + ": " + p.link.value]
    ensures !Truthy(p.website) && !Truthy(p.link) ==> PlaceLines([p]) == []
  {
    assert [p][..0] == [];
  }

  /** Organic results past the fifth never reach the output. */
  lemma SerpIgnoresLateOrganic(results: SerpResults, extra: seq<OrganicResult>)
    requires |results.organic| >= MaxResults
    ensures SerpLines(SerpResults(results.organic + extra, results.places)) == SerpLines(results)
  {
    assert Take(results.organic + extra, MaxResults) == Take(results.organic, MaxResults);
  }

  /** Local places past the fifth never reach the output. */
  lemma SerpIgnoresLatePlaces(results: SerpResults, extra: seq<LocalPlace>)
    requires |results.places| >= MaxResults
    ensures SerpLines(SerpResults(results.organic, results.places + extra)) == SerpLines(results)
  {
    assert Take(results.places + extra, MaxResults) == Take(results.places, MaxResults);
  }

  // ---------------------------------------------------------------------------
  // Properties of the junk filter and the output choice

  /** Filtering keeps exactly the non-junk lines. */
  lemma {:induction false} CleanMembership(lines: seq<string>, line: string)
    ensures line in Clean(lines) <==> line in lines && !IsJunkLine(line)
  {
    if lines != [] {
      CleanMembership(lines[1..], line);
      assert lines == [lines[0]] + lines[1..];
    }
  }

  /** Filtering distributes over concatenation, so it keeps the original order. */
  lemma {:induction false} CleanAppend(a: seq<string>, b: seq<string>)
    ensures Clean(a + b) == Clean(a) + Clean(b)
  {
    if a != [] {
      assert (a + b)[1..] == a[1..] + b;
      CleanAppend(a[1..], b);
    } else {
      assert a + b == b;
    }
  }

  lemma {:induction false} CleanBound(lines: seq<string>)
    ensures |Clean(lines)| <= |lines|
  {
    if lines != [] {
      CleanBound(lines[1..]);
    }
  }

  /**
   * What the formatter outputs: at most five lines; when some line is clean,
   * the first five clean lines in order (all of them when there are fewer) and
   * nothing junk; otherwise the first two lines as they are.
   */
  lemma SelectedLinesMeaning(formatted: seq<string>)
    ensures |SelectedLines(formatted)| <= MaxResults
    ensures forall l :: l in SelectedLines(formatted) ==> l in formatted
    ensures Clean(formatted) != [] ==>
      SelectedLines(formatted) != [] &&
      (forall l :: l in SelectedLines(formatted) ==> !IsJunkLine(l)) &&
      SelectedLines(formatted) == Clean(formatted)[..|SelectedLines(formatted)|]
    ensures Clean(formatted) != [] ==>
      |SelectedLines(formatted)| == if |Clean(formatted)| < MaxResults then |Clean(formatted)| else MaxResults
    ensures Clean(formatted) == [] ==> SelectedLines(formatted) == Take(formatted, JunkFallbackLines)
  {
    var clean := Clean(formatted);
    forall l | l in clean {
      CleanMembership(formatted, l);
    }
    if clean == [] {
      forall l | l in Take(formatted, JunkFallbackLines) ensures l in formatted {
        var k :| 0 <= k < |Take(formatted, JunkFallbackLines)| && Take(formatted, JunkFallbackLines)[k] == l;
        assert formatted[k] == l;
      }
    } else {
      var sel := Take(clean, MaxResults);
      forall l | l in sel ensures l in clean {
        var k :| 0 <= k < |sel| && sel[k] == l;
        assert clean[k] == l;
      }
    }
  }

  /**
   * The junk check of a formatted line looks at the link itself whenever the
   * link holds no ": ", whatever the title contains.
   */
  lemma JunkJudgedOnLink(title: string, link: string)
    requires forall i: nat :: !OccursAt(link, ": ", i)
    ensures IsJunkLine(FormatLine(title, link)) == IsJunkLink(Some(link))
  {
    LastPieceAfterColon(title, link);
  }

  // ---------------------------------------------------------------------------
  // Tavily

  /** One item of a Tavily result list: a dict (with optional title and url) or anything else. */
  datatype TavilyItem = ResultDict(title: Option<string>, url: Option<string>) | NotADict

  /** What `TavilySearch.invoke` returned: a list, a dict (with an optional "results" list), or another value. */
  datatype TavilyResult = AsList(items: seq<TavilyItem>) | AsDict(results: Option<seq<TavilyItem>>) | OtherValue

  /** `results_list`. */
  function ResultsList(result: TavilyResult): seq<TavilyItem>
  {
    match result
    case AsList(items) => items
    case AsDict(results) => if results.Some? then results.value else []
    case OtherValue => []
  }

  predicate TavilyUsable(item: TavilyItem)
  {
    item.ResultDict? && Truthy(item.title) && Truthy(item.url)
  }

  function TavilyLine(item: TavilyItem): string
    requires TavilyUsable(item)
  {
    FormatLine(item.title.value, item.url.value)
  }

  /** The lines the Tavily loop appends, in order. */
  function TavilyLines(items: seq<TavilyItem>): seq<string>
  {
    if items == [] then []
    else
      var last := items[|items| - 1];
      TavilyLines(items[..|items| - 1]) + (if TavilyUsable(last) then [TavilyLine(last)] else [])
  }

  /** `_format_tavily_results`, given the result and its `str()` rendering. */
  method FormatTavilyResults(result: TavilyResult, rendered: string) returns (out: string)
    ensures var formatted := TavilyLines(Take(ResultsList(result), MaxResults));
      out == if formatted == [] then rendered else ChooseOutput(formatted)
  {
    var resultsList := ResultsList(result);
    if resultsList != [] {
      var formatted := [];
      var items := Take(resultsList, MaxResults);
      var i := 0;
      while i < |items|
        invariant 0 <= i <= |items|
        invariant formatted == TavilyLines(items[..i])
      {
        var res := items[i];
        assert items[..i + 1][..i] == items[..i];
        if res.ResultDict? {
          if Truthy(res.title) && Truthy(res.url) {
            formatted := formatted + [FormatLine(res.title.value, res.url.value)];
          }
        }
        i := i + 1;
      }
      assert items[..i] == items;
      if formatted != [] {
        var clean := Clean(formatted);
        return if clean != [] then Join(Take(clean, MaxResults), "\n") else Join(Take(formatted, JunkFallbackLines), "\n");
      }
    }
    return rendered;
  }

  lemma {:induction false} TavilyLinesBound(items: seq<TavilyItem>)
    ensures |TavilyLines(items)| <= |items|
  {
    if items != [] {
      TavilyLinesBound(items[..|items| - 1]);
    }
  }

  /** A Tavily line comes from a dict item with both a title and a url, and every such item gives one. */
  lemma {:induction false} TavilyLinesMembership(items: seq<TavilyItem>, line: string)
    ensures line in TavilyLines(items) <==>
      exists i :: 0 <= i < |items| && TavilyUsable(items[i]) && line == TavilyLine(items[i])
  {
    if items != [] {
      var init := items[..|items| - 1];
      TavilyLinesMembership(init, line);
      if line in TavilyLines(init) {
        var i :| 0 <= i < |init| && TavilyUsable(init[i]) && line == TavilyLine(init[i]);
        assert items[i] == init[i];
      }
      if exists i :: 0 <= i < |items| && TavilyUsable(items[i]) && line == TavilyLine(items[i]) {
        var i :| 0 <= i < |items| && TavilyUsable(items[i]) && line == TavilyLine(items[i]);
        if i < |init| {
          assert init[i] == items[i];
        }
      }
    }
  }

  /** A list is taken as is, a dict through its "results" key, and anything else gives no items. */
  lemma TavilyAcceptedShapes(items: seq<TavilyItem>)
    ensures ResultsList(AsList(items)) == items
    ensures ResultsList(AsDict(Some(items))) == items
    ensures ResultsList(AsDict(None)) == [] && ResultsList(OtherValue) == []
  {
  }

  // ---------------------------------------------------------------------------
  // The search methods of the two back-ends

  /** The five kinds of place search the tools offer. */
  datatype SearchKind = Attractions | Restaurants | Hotels | Activities | Transportation

  /** The query each SerpAPI search method sends. */
  function SerpQuery(kind: SearchKind, place: string): string
  {
    match kind
    case Attractions => "official attractions and things to do in " + place + " with website links"
    case Restaurants => "top restaurants in " + place + " official website or tripadvisor zomato"
    case Hotels => "best hotels in " + place + " official website or booking.com tripadvisor"
    case Activities => "top activities in and around " + place
    case Transportation => "modes of transportation in and around " + place
  }

  /** Attractions, restaurants and hotels go through the formatter; the other two return the plain answer. */
  predicate SerpFormats(kind: SearchKind)
  {
    kind == Attractions || kind == Restaurants || kind == Hotels
  }

  /**
   * A SerpAPI search method. `results` and `run` stand for the wrapper's two
   * calls (the structured results and the plain-text answer for a query).
   */
  method SerpSearch(kind: SearchKind, place: string, results: string -> SerpResults, run: string -> string)
    returns (out: string)
    ensures var q := SerpQuery(kind, place);
      !SerpFormats(kind) ==> out == run(q)
    ensures var q := SerpQuery(kind, place);
      SerpFormats(kind) ==> out == if SerpLines(results(q)) == [] then run(q) else ChooseOutput(SerpLines(results(q)))
  {
    var query := SerpQuery(kind, place);
    if SerpFormats(kind) {
      out := FormatSerpResults(results(query), run(query));
    } else {
      out := run(query);
    }
  }

  /** The query each Tavily search method sends. */
  function TavilyQuery(kind: SearchKind, place: string): string
  {
    match kind
    case Attractions => "verified top attractions and landmarks in " + place + " official website"
    case Restaurants => "top rated restaurants in " + place + " official website zomato tripadvisor"
    case Hotels => "top luxury and boutique hotels in " + place + " official website booking.com"
    case Activities => "tourist activities and experiences in " + place + " verified links"
    case Transportation => "official public transport and taxi guide for " + place
  }

  /**
   * A Tavily search method. `invoke` stands for the search call and `render`
   * for Python's `str()` of its result.
   */
  method TavilySearch(kind: SearchKind, place: string, invoke: string -> TavilyResult, render: TavilyResult -> string)
    returns (out: string)
    ensures var r := invoke(TavilyQuery(kind, place));
      var formatted := TavilyLines(Take(ResultsList(r), MaxResults));
      out == if formatted == [] then render(r) else ChooseOutput(formatted)
  {
    var result := invoke(TavilyQuery(kind, place));
    out := FormatTavilyResults(result, render(result));
  }
}
