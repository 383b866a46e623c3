/** `filter_products`: drop unavailable or hidden products, keeping the order of the rest. */
module ProductFilter {
  import opened Wrappers
  import opened Json
  import opened Sequences

  /** Availability strings (after lower-casing) that mark a product unavailable. */
  const UnavailableValues: set<string> := {"disabled", "unavailable", "no", "false", "0"}

  /** `str(prod.get("availability", "")).lower()` */
  function Availability(record: Value): string
    requires record.Obj?
  {
    Lower(ToStr(Lookup(record.members, "availability", Str(""))))
  }

  /** `prod.get("is_visible", True)` */
  function Visibility(record: Value): Value
    requires record.Obj?
  {
    Lookup(record.members, "is_visible", Bool(true))
  }

  /** Whether the filter skips a record under the two flags. */
  predicate Dropped(record: Value, includeUnavailable: bool, includeHidden: bool)
    requires record.Obj?
  {
    (!includeUnavailable && Availability(record) in UnavailableValues) ||
    (!includeHidden && !Truthy(Visibility(record)))
  }

  /** Whether an input entry reaches the output (a falsy entry stands for `{}`). */
  predicate Kept(product: Value, includeUnavailable: bool, includeHidden: bool) {
    var record := OrEmptyDict(product);
    record.Obj? && !Dropped(record, includeUnavailable, includeHidden)
  }

  /** Every entry is a dict or falsy, so the filter does not raise. */
  predicate AllRecords(products: seq<Value>) {
    forall i :: 0 <= i < |products| ==> OrEmptyDict(products[i]).Obj?
  }

  /** The filter's output: the kept entries, in input order. */
  function Survivors(products: seq<Value>, includeUnavailable: bool, includeHidden: bool): seq<Value> {
    if products == [] then []
    else
      (if Kept(products[0], includeUnavailable, includeHidden) then [OrEmptyDict(products[0])] else []) +
      Survivors(products[1..], includeUnavailable, includeHidden)
  }

  lemma {:induction false} SurvivorsAppend(a: seq<Value>, b: seq<Value>, includeUnavailable: bool, includeHidden: bool)
    ensures Survivors(a + b, includeUnavailable, includeHidden) ==
            Survivors(a, includeUnavailable, includeHidden) + Survivors(b, includeUnavailable, includeHidden)
  {
    if a == [] {
      assert a + b == b;
    } else {
      assert a == [a[0]] + a[1..];
      assert a + b == [a[0]] + (a[1..] + b);
      SurvivorsCons(a[0], a[1..] + b, includeUnavailable, includeHidden);
      SurvivorsCons(a[0], a[1..], includeUnavailable, includeHidden);
      SurvivorsAppend(a[1..], b, includeUnavailable, includeHidden);
    }
  }

  /** The survivors of `[x] + rest`: `x` itself when kept, then the survivors of `rest`. */
  lemma SurvivorsCons(x: Value, rest: seq<Value>, includeUnavailable: bool, includeHidden: bool)
    ensures Survivors([x] + rest, includeUnavailable, includeHidden) ==
            (if Kept(x, includeUnavailable, includeHidden) then [OrEmptyDict(x)] else []) +
            Survivors(rest, includeUnavailable, includeHidden)
  {
    assert ([x] + rest)[1..] == rest;
  }

  /**
   * `filter_products`: fails with AttributeError on the first entry that is
   * neither a dict nor falsy; otherwise returns exactly the survivors.
   */
  method FilterProducts(products: seq<Value>, includeUnavailable: bool, includeHidden: bool)
    returns (result: Result<seq<Value>, Fault>)
    ensures result.Success? <==> AllRecords(products)
    ensures result.Success? ==> result.value == Survivors(products, includeUnavailable, includeHidden)
    ensures result.Failure? ==> result.error == AttributeError
  {
    var filtered: seq<Value> := [];
    var i := 0;
    while i < |products|
      invariant 0 <= i <= |products|
      invariant AllRecords(products[..i])
      invariant filtered == Survivors(products[..i], includeUnavailable, includeHidden)
    {
      SurvivorsSnoc(products, i, includeUnavailable, includeHidden);
      var prod := OrEmptyDict(products[i]);
      if !prod.Obj? {
        return Failure(AttributeError);
      }
      var availability := Availability(prod);
      var isVisible := Visibility(prod);
      if !includeUnavailable && availability in UnavailableValues {
        i := i + 1;
        continue;
      }
      if !includeHidden && !Truthy(isVisible) {
        i := i + 1;
        continue;
      }
      filtered := filtered + [prod];
      i := i + 1;
    }
    assert products[..i] == products;
    result := Success(filtered);
  }

  /** One more entry adds that entry to the survivors when it is kept. */
  lemma SurvivorsSnoc(products: seq<Value>, i: nat, includeUnavailable: bool, includeHidden: bool)
    requires i < |products|
    ensures AllRecords(products[..i]) && OrEmptyDict(products[i]).Obj? ==> AllRecords(products[..i + 1])
    ensures Survivors(products[..i + 1], includeUnavailable, includeHidden) ==
              Survivors(products[..i], includeUnavailable, includeHidden) +
              (if Kept(products[i], includeUnavailable, includeHidden) then [OrEmptyDict(products[i])] else [])
  {
    assert products[..i + 1] == products[..i] + [products[i]];
    SurvivorsAppend(products[..i], [products[i]], includeUnavailable, includeHidden);
    assert [products[i]][1..] == [];
  }

  /** The output is an order-preserving subsequence of the normalized input. */
  lemma {:induction false} SurvivorsSubsequence(products: seq<Value>, includeUnavailable: bool, includeHidden: bool)
    ensures IsSubsequence(Survivors(products, includeUnavailable, includeHidden), OrEmptyDicts(products))
  {
    if products != [] {
      var rest := Survivors(products[1..], includeUnavailable, includeHidden);
      var n := OrEmptyDicts(products);
      assert n[1..] == OrEmptyDicts(products[1..]);
      SurvivorsSubsequence(products[1..], includeUnavailable, includeHidden);
      if Kept(products[0], includeUnavailable, includeHidden) {
        assert ([OrEmptyDict(products[0])] + rest)[1..] == rest;
      } else {
        assert [] + rest == rest;
        if rest != [] {
          assert IsSubsequence(rest, n[1..]);
        }
      }
    }
  }

  /** An output record is a kept input entry, and every kept input entry is in the output. */
  lemma {:induction false} SurvivorsMembers(products: seq<Value>, includeUnavailable: bool, includeHidden: bool, x: Value)
    ensures x in Survivors(products, includeUnavailable, includeHidden) <==>
              exists i :: 0 <= i < |products| && Kept(products[i], includeUnavailable, includeHidden) &&
                          x == OrEmptyDict(products[i])
  {
    if products != [] {
      SurvivorsMembers(products[1..], includeUnavailable, includeHidden, x);
      if exists i :: 0 <= i < |products| && Kept(products[i], includeUnavailable, includeHidden) &&
                     x == OrEmptyDict(products[i]) {
        var i :| 0 <= i < |products| && Kept(products[i], includeUnavailable, includeHidden) &&
                 x == OrEmptyDict(products[i]);
        if i > 0 {
          assert products[1..][i - 1] == products[i];
        }
      }
      if x in Survivors(products[1..], includeUnavailable, includeHidden) {
        var i :| 0 <= i < |products[1..]| && Kept(products[1..][i], includeUnavailable, includeHidden) &&
                 x == OrEmptyDict(products[1..][i]);
        assert products[i + 1] == products[1..][i];
      }
    }
  }

  /** Every survivor is a dict that the same filter keeps again. */
  lemma {:induction false} SurvivorsAreKept(products: seq<Value>, includeUnavailable: bool, includeHidden: bool)
    ensures forall k :: 0 <= k < |Survivors(products, includeUnavailable, includeHidden)| ==>
              var s := Survivors(products, includeUnavailable, includeHidden)[k];
              s.Obj? && OrEmptyDict(s) == s && Kept(s, includeUnavailable, includeHidden)
  {
    if products != [] {
      SurvivorsAreKept(products[1..], includeUnavailable, includeHidden);
    }
  }

  /** Filtering twice with the same flags gives the same result as filtering once. */
  lemma {:induction false} FilterIdempotent(products: seq<Value>, includeUnavailable: bool, includeHidden: bool)
    ensures var once := Survivors(products, includeUnavailable, includeHidden);
            AllRecords(once) && Survivors(once, includeUnavailable, includeHidden) == once
  {
    if products != [] {
      var rest := Survivors(products[1..], includeUnavailable, includeHidden);
      FilterIdempotent(products[1..], includeUnavailable, includeHidden);
      SurvivorsAreKept(products, includeUnavailable, includeHidden);
      if Kept(products[0], includeUnavailable, includeHidden) {
        var head := OrEmptyDict(products[0]);
        SurvivorsAppend([head], rest, includeUnavailable, includeHidden);
        assert Survivors([head], includeUnavailable, includeHidden) == [head] by {
          assert [head][1..] == [];
        }
      } else {
        assert [] + rest == rest;
      }
    }
  }

  /** With both flags set, nothing is dropped. */
  lemma {:induction false} IncludeAllKeepsEverything(products: seq<Value>)
    requires AllRecords(products)
    ensures Survivors(products, true, true) == OrEmptyDicts(products)
  {
    if products != [] {
      assert AllRecords(products[1..]) by {
        forall i | 0 <= i < |products[1..]| ensures OrEmptyDict(products[1..][i]).Obj? {
          assert products[1..][i] == products[i + 1];
        }
      }
      IncludeAllKeepsEverything(products[1..]);
      assert OrEmptyDicts(products) == [OrEmptyDict(products[0])] + OrEmptyDicts(products[1..]);
    }
  }

  /** Lower-casing leaves a string without upper-case ASCII letters unchanged. */
  lemma LowerOfLowercase(s: string)
    requires forall i :: 0 <= i < |s| ==> !('A' <= s[i] <= 'Z')
    ensures Lower(s) == s
  {
  }

  /** A boolean `false` availability reads as "false" after `str()` and `lower()`, so it is unavailable. */
  lemma FalseAvailabilityIsUnavailable(record: Value)
    requires record.Obj? && Lookup(record.members, "availability", Str("")) == Bool(false)
    ensures Dropped(record, false, true)
  {
    assert Lower("False") == "false";
  }

  /** Three products, one hidden, one disabled and one normal, leave one survivor when neither flag is set. */
  lemma ThreeProductScenario()
    ensures var hidden := Obj([("id", Int(1)), ("is_visible", Bool(false))]);
            var disabled := Obj([("id", Int(2)), ("availability", Str("disabled"))]);
            var normal := Obj([("id", Int(3)), ("availability", Str("available")), ("is_visible", Bool(true))]);
            Survivors([hidden, disabled, normal], false, false) == [normal]
  {
    var hidden := Obj([("id", Int(1)), ("is_visible", Bool(false))]);
    var disabled := Obj([("id", Int(2)), ("availability", Str("disabled"))]);
    var normal := Obj([("id", Int(3)), ("availability", Str("available")), ("is_visible", Bool(true))]);
    LowerOfLowercase("");
    LowerOfLowercase("disabled");
    LowerOfLowercase("available");
    assert Availability(hidden) == "";
    assert Availability(disabled) == "disabled";
    assert Availability(normal) == "available";
    assert Visibility(hidden) == Bool(false);
    assert Visibility(normal) == Bool(true);
    assert !Kept(hidden, false, false);
    assert !Kept(disabled, false, false);
    assert Kept(normal, false, false);
    assert [normal][1..] == [];
    assert Survivors([normal], false, false) == [normal];
    assert [disabled, normal][1..] == [normal];
    assert Survivors([disabled, normal], false, false) == [normal];
    assert [hidden, disabled, normal][1..] == [disabled, normal];
  }
}
