/**
 * The filter endpoint getCafesByMultipleTags: the length check of the two
 * request lists, the loop that collects the (name, value) pairs whose value
 * is neither null nor empty, and the service call, which is made with the
 * request lists as they came in.
 */
module TagFilter {
  import opened Wrappers
  import opened Domain
  import opened Projections

  /**
   * The unseen service query getCafesByMultipleTagsAndValues, as a parameter:
   * the cafes it returns for a list of tag names and a list of values.
   */
  type Service = (seq<string>, seq<Option<string>>) -> seq<Cafe>

  /** A value the cleaning loop keeps: neither null nor empty. */
  predicate IsUsableValue(v: Option<string>) {
    v.Some? && |v.value| > 0
  }

  /** The lists the cleaning loop builds, from the first pair to the last. */
  function Cleaned(names: seq<string>, values: seq<Option<string>>): (seq<string>, seq<string>)
    requires |names| == |values|
    decreases |names|
  {
    if |names| == 0 then ([], [])
    else
      var n := |names| - 1;
      var (keptNames, keptValues) := Cleaned(names[..n], values[..n]);
      if IsUsableValue(values[n]) then (keptNames + [names[n]], keptValues + [values[n].value])
      else (keptNames, keptValues)
  }

  /** The positions of the pairs with a usable value: all of them, ascending. */
  function UsableIndices(values: seq<Option<string>>): (r: seq<nat>)
    ensures forall j :: 0 <= j < |r| ==> r[j] < |values| && IsUsableValue(values[r[j]])
    ensures forall i :: 0 <= i < |values| && IsUsableValue(values[i]) ==> i in r
    ensures forall j, j' :: 0 <= j < j' < |r| ==> r[j] < r[j']
    decreases |values|
  {
    if |values| == 0 then []
    else
      var n := |values| - 1;
      var prefix := UsableIndices(values[..n]);
      if IsUsableValue(values[n]) then prefix + [n] else prefix
  }

  /**
   * The cleaned lists have one entry per usable pair, and entry j is the
   * j-th usable pair of the request: with UsableIndices' contract, exactly
   * the pairs with a non-null, non-empty value, in their original order.
   */
  lemma {:induction false} CleanedKeepsUsablePairs(names: seq<string>, values: seq<Option<string>>)
    requires |names| == |values|
    ensures |Cleaned(names, values).0| == |UsableIndices(values)|
    ensures |Cleaned(names, values).1| == |UsableIndices(values)|
    ensures forall j :: 0 <= j < |UsableIndices(values)| ==>
      && Cleaned(names, values).0[j] == names[UsableIndices(values)[j]]
      && Some(Cleaned(names, values).1[j]) == values[UsableIndices(values)[j]]
    decreases |names|
  {
    if |names| > 0 {
      var n := |names| - 1;
      CleanedKeepsUsablePairs(names[..n], values[..n]);
      var prefix := UsableIndices(values[..n]);
      forall j | 0 <= j < |prefix|
        ensures names[..n][prefix[j]] == names[prefix[j]]
        ensures values[..n][prefix[j]] == values[prefix[j]]
      {
      }
    }
  }

  /** No value in the cleaned list is empty. */
  lemma CleanedValuesAreUsable(names: seq<string>, values: seq<Option<string>>)
    requires |names| == |values|
    ensures forall j :: 0 <= j < |Cleaned(names, values).1| ==> |Cleaned(names, values).1[j]| > 0
  {
    CleanedKeepsUsablePairs(names, values);
  }

  /** The cleaning loop of lines 123-131. */
  method CleanFilterPairs(tagNames: seq<string>, values: seq<Option<string>>)
    returns (validTagNames: seq<string>, validValues: seq<string>)
    requires |tagNames| == |values|
    ensures (validTagNames, validValues) == Cleaned(tagNames, values)
  {
    validTagNames, validValues := [], [];
    var i := 0;
    while i < |tagNames|
      invariant 0 <= i <= |tagNames|
      invariant (validTagNames, validValues) == Cleaned(tagNames[..i], values[..i])
    {
      assert tagNames[..i + 1][..i] == tagNames[..i];
      assert values[..i + 1][..i] == values[..i];
      if values[i].Some? && |values[i].value| != 0 {
        validTagNames := validTagNames + [tagNames[i]];
        validValues := validValues + [values[i].value];
      }
      i := i + 1;
    }
    assert tagNames[..i] == tagNames && values[..i] == values;
  }

  /** The response of the filter endpoint as the code computes it. */
  function FilterResponse(tagNames: seq<string>, values: seq<Option<string>>, service: Service)
    : Result<seq<CafeHomeDto>, Failure>
  {
    if |tagNames| != |values| then Failure(BadRequest)
    else FilterPins(service(tagNames, values))
  }

  /**
   * getCafesByMultipleTags as written: a 400 response when the lists differ
   * in length; otherwise the cleaned lists are built, but the service is
   * asked with the request lists.
   */
  method GetCafesByMultipleTags(tagNames: seq<string>, values: seq<Option<string>>, service: Service)
    returns (r: Result<seq<CafeHomeDto>, Failure>)
    ensures r == Failure(BadRequest) <==> |tagNames| != |values|
    ensures |tagNames| == |values| ==> r == FilterPins(service(tagNames, values))
    ensures r == FilterResponse(tagNames, values, service)
  {
    if |tagNames| != |values| {
      return Failure(BadRequest);
    }
    var validTagNames, validValues := CleanFilterPairs(tagNames, values);
    var cafes := service(tagNames, values);
    r := FilterPins(cafes);
  }

  /** On mismatched lengths the service's answers play no part in the response. */
  lemma MismatchIgnoresService(tagNames: seq<string>, values: seq<Option<string>>, s1: Service, s2: Service)
    requires |tagNames| != |values|
    ensures FilterResponse(tagNames, values, s1) == FilterResponse(tagNames, values, s2) == Failure(BadRequest)
  {
  }

  /**
   * The response depends only on what the service returns for the request
   * lists; its answer for the cleaned lists is never consulted.
   */
  lemma ResponseDependsOnRawQueryOnly(tagNames: seq<string>, values: seq<Option<string>>, s1: Service, s2: Service)
    requires |tagNames| == |values|
    requires s1(tagNames, values) == s2(tagNames, values)
    ensures FilterResponse(tagNames, values, s1) == FilterResponse(tagNames, values, s2)
  {
  }

  /** The cleaned values, as the list of nullable strings the service takes. */
  function AsValues(vs: seq<string>): (r: seq<Option<string>>)
    ensures |r| == |vs|
    ensures forall i :: 0 <= i < |vs| ==> r[i] == Some(vs[i])
  {
    if vs == [] then [] else [Some(vs[0])] + AsValues(vs[1..])
  }

  /** The response when the service is asked with the cleaned lists. */
  function CleanedFilterResponse(tagNames: seq<string>, values: seq<Option<string>>, service: Service)
    : Result<seq<CafeHomeDto>, Failure>
  {
    if |tagNames| != |values| then Failure(BadRequest)
    else
      var (validTagNames, validValues) := Cleaned(tagNames, values);
      FilterPins(service(validTagNames, AsValues(validValues)))
  }

  /**
   * The filter endpoint as its comment intends: the service is asked with the
   * cleaned lists, so it receives equal-length lists in which every value is
   * usable.
   */
  method GetCafesByMultipleTagsCleaned(tagNames: seq<string>, values: seq<Option<string>>, service: Service)
    returns (r: Result<seq<CafeHomeDto>, Failure>)
    ensures r == Failure(BadRequest) <==> |tagNames| != |values|
    ensures |tagNames| == |values| ==>
      r == FilterPins(service(Cleaned(tagNames, values).0, AsValues(Cleaned(tagNames, values).1)))
    ensures r == CleanedFilterResponse(tagNames, values, service)
  {
    if |tagNames| != |values| {
      return Failure(BadRequest);
    }
    var validTagNames, validValues := CleanFilterPairs(tagNames, values);
    var cafes := service(validTagNames, AsValues(validValues));
    r := FilterPins(cafes);
  }

  /** The query of the cleaned endpoint never holds a null or empty value. */
  lemma CleanedQueryHasOnlyUsableValues(tagNames: seq<string>, values: seq<Option<string>>)
    requires |tagNames| == |values|
    ensures |Cleaned(tagNames, values).0| == |AsValues(Cleaned(tagNames, values).1)|
    ensures forall j :: 0 <= j < |AsValues(Cleaned(tagNames, values).1)| ==>
      IsUsableValue(AsValues(Cleaned(tagNames, values).1)[j])
  {
    CleanedKeepsUsablePairs(tagNames, values);
  }

  /** A cafe with no tags and no photos, for the example below. */
  function SomeCafe(): Cafe {
    Cafe(1, "", "", 0.0, 0.0, "", "", "", 0, 0.0, "", None, None, None, None, None, Some([]))
  }

  /** A service that answers SomeCafe() to the single condition desk, and nothing otherwise. */
  function DeskOnlyService(names: seq<string>, values: seq<Option<string>>): seq<Cafe> {
    if names == ["desk"] then [SomeCafe()] else []
  }

  /**
   * The request tagNames = ["wifi", "desk"], values = ["", "available"]: the
   * service is asked with the empty wifi value as well, so a service that
   * matches only the cleaned query gives a different response from the one
   * the cleaned endpoint gives.
   */
  lemma EmptyPairReachesService()
    ensures Cleaned(["wifi", "desk"], [Some(""), Some("available")]) == (["desk"], ["available"])
    ensures FilterResponse(["wifi", "desk"], [Some(""), Some("available")], DeskOnlyService) == Success([])
    ensures CleanedFilterResponse(["wifi", "desk"], [Some(""), Some("available")], DeskOnlyService)
         == Success([FilterPin(SomeCafe()).value])
  {
    var names: seq<string>, values: seq<Option<string>> := ["wifi", "desk"], [Some(""), Some("available")];
    assert names[..1] == ["wifi"] && values[..1] == [Some("")];
    assert names[..1][..0] == [] && values[..1][..0] == [];
    assert !IsUsableValue(values[0]) && IsUsableValue(values[1]);
    assert Cleaned(names[..1], values[..1]) == ([], []);
    assert names[..|names| - 1] == names[..1] && values[..|values| - 1] == values[..1];
    assert Cleaned(names, values) == ([] + [names[1]], [] + [values[1].value]);
    assert [] + [names[1]] == ["desk"] && [] + [values[1].value] == ["available"];
    assert names != ["desk"];
    assert DeskOnlyService(["desk"], AsValues(["available"])) == [SomeCafe()];
    assert !FilterPinFails(SomeCafe()) && FilterPin(SomeCafe()).Success?;
    assert [SomeCafe()][1..] == [];
    var pins := FilterPins([SomeCafe()]);
    assert pins.Success? && |pins.value| == 1 && pins.value[0] == FilterPin(SomeCafe()).value;
    assert pins.value == [pins.value[0]];
  }
}
