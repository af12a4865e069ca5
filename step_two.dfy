/**
 * frontend/src/components/calculator/step-two.tsx: the city search (a query shorter than two
 * characters clears the results without searching), the fixed list of popular destinations,
 * and `handleNext`, which needs a target city.
 */
module StepTwo {
  import opened Wrappers

  /** `CityOption`. */
  datatype CityOption = CityOption(name: string, costLevel: string)

  /** `popularCities`. */
  const PopularCities: seq<CityOption> := [
    CityOption("London, UK", "High cost"),
    CityOption("Tokyo, Japan", "Very high cost"),
    CityOption("Berlin, Germany", "Moderate cost"),
    CityOption("Bangkok, Thailand", "Low cost"),
    CityOption("Sydney, Australia", "High cost"),
    CityOption("Mexico City, Mexico", "Low cost")
  ]

  /** The popular list has six entries with distinct, non-empty names (they are the list keys),
      so choosing any of them satisfies `handleNext`. */
  lemma PopularCitiesWellFormed()
    ensures |PopularCities| == 6
    ensures forall i, j | 0 <= i < j < |PopularCities| :: PopularCities[i].name != PopularCities[j].name
    ensures forall i | 0 <= i < |PopularCities| :: PopularCities[i].name != ""
  {
  }

  /** `handleNext`: the alert it shows, or None when it moves on. */
  function CheckStepTwo(targetCity: string): (alert: Option<string>)
    ensures alert.None? <==> targetCity != ""
    ensures alert.Some? ==> alert.value == "Please select a city to compare"
  {
    if targetCity == "" then Some("Please select a city to compare") else None
  }

  /** The search box's local state. */
  class CitySearch {
    var query: string
    var results: seq<CityOption>
    var isSearching: bool

    constructor ()
      ensures query == "" && results == [] && !isSearching
    {
      query, results, isSearching := "", [], false;
    }

    /** Typing in the search box. */
    method SetQuery(q: string)
      modifies this
      ensures query == q && results == old(results) && isSearching == old(isSearching)
    {
      query := q;
    }

    /** The debounced effect for the current query; `found` is what `api.searchCities` resolves
        to (None: it rejected). Returns whether the search was called. */
    method RunSearch(found: Option<seq<CityOption>>) returns (searched: bool)
      modifies this
      ensures searched <==> |query| >= 2
      ensures results == (if |query| < 2 then [] else found.GetOr([]))
      ensures |query| >= 2 ==> !isSearching
      ensures |query| < 2 ==> isSearching == old(isSearching)
      ensures query == old(query)
    {
      if |query| < 2 {
        results := [];
        return false;
      }
      isSearching := true;
      results := found.GetOr([]);
      isSearching := false;
      searched := true;
    }
  }
}
