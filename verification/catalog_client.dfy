/**
 * The catalog availability gate: every requested item must be an available
 * dish, or, when the dish lookup answers 404, an available menu. The first
 * failing item ends the check with `false`, and any error counts as a failure.
 * The HTTP lookups are an oracle from probe to response.
 */
module CatalogClient {

  datatype AvailabilityRequest = AvailabilityRequest(itemId: string, quantity: real)

  /** A lookup: `GET /dish/{id}` or `GET /menu/{id}`. */
  datatype Probe = Dish(id: string) | Menu(id: string)

  /**
   * What a lookup gives: an ok response whose `data.availability` is truthy or
   * not (missing counts as not), a 404, another non-ok status, or an exception
   * from `fetch` or from reading the body.
   */
  datatype Response = Ok(available: bool) | NotFound | OtherStatus | Threw

  const BaseUrl := "http://catalog-nginx"

  /** The URL a probe fetches. */
  function Url(p: Probe): string
  {
    match p
    case Dish(id) => BaseUrl + "/dish/" + id
    case Menu(id) => BaseUrl + "/menu/" + id
  }

  /**
   * Distinct lookups fetch distinct URLs, so the log of probes is the log of
   * URLs fetched, one for one.
   */
  lemma UrlIdentifiesProbe(p: Probe, q: Probe)
    ensures Url(p) == Url(q) <==> p == q
  {
    var n := |BaseUrl| + 6;
    if Url(p) == Url(q) {
      assert Url(p)[|BaseUrl| + 1] == (if p.Dish? then 'd' else 'm');
      assert Url(q)[|BaseUrl| + 1] == (if q.Dish? then 'd' else 'm');
      assert Url(p)[n..] == p.id;
      assert Url(q)[n..] == q.id;
    }
  }

  /** An item passes: an available dish, or a missing dish and an available menu. */
  predicate ItemAvailable(id: string, catalog: Probe -> Response)
  {
    catalog(Dish(id)) == Ok(true) || (catalog(Dish(id)) == NotFound && catalog(Menu(id)) == Ok(true))
  }

  /** Every requested item passes. */
  predicate AllAvailable(items: seq<AvailabilityRequest>, catalog: Probe -> Response)
  {
    forall k :: 0 <= k < |items| ==> ItemAvailable(items[k].itemId, catalog)
  }

  /** The lookups made for one item: the dish, then the menu only after a 404. */
  function ItemProbes(id: string, catalog: Probe -> Response): seq<Probe>
  {
    if catalog(Dish(id)) == NotFound then [Dish(id), Menu(id)] else [Dish(id)]
  }

  /** The lookups made for a list of items, stopping after the first item that fails. */
  function Trace(items: seq<AvailabilityRequest>, catalog: Probe -> Response): seq<Probe>
  {
    if items == [] then []
    else
      var rest := if ItemAvailable(items[0].itemId, catalog) then Trace(items[1..], catalog) else [];
      ItemProbes(items[0].itemId, catalog) + rest
  }

  /**
   * `checkAvailability(items)`: `ok` is the verdict, `probes` the lookups
   * made, in order.
   */
  method CheckAvailability(items: seq<AvailabilityRequest>, catalog: Probe -> Response)
    returns (ok: bool, probes: seq<Probe>)
    ensures ok <==> AllAvailable(items, catalog)
    ensures probes == Trace(items, catalog)
  {
    probes := [];
    var i := 0;
    while i < |items|
      invariant 0 <= i <= |items|
      invariant forall k :: 0 <= k < i ==> ItemAvailable(items[k].itemId, catalog)
      invariant probes == Done(items, i, catalog)
    {
      var id := items[i].itemId;
      var response := catalog(Dish(id));
      probes := probes + [Dish(id)];
      if response.Ok? {
        if !response.available {
          FailedItemEndsTrace(items, i, catalog);
          return false, probes;
        }
        i := i + 1;
        continue;
      }
      if response == NotFound {
        response := catalog(Menu(id));
        probes := probes + [Menu(id)];
        if response.Ok? {
          if !response.available {
            FailedItemEndsTrace(items, i, catalog);
            return false, probes;
          }
          i := i + 1;
          continue;
        }
      }
      FailedItemEndsTrace(items, i, catalog);
      return false, probes;
    }
    TraceSplit(items, i, catalog);
    return true, probes;
  }

  /** The lookups for the first `n` items when each of them passes. */
  function Done(items: seq<AvailabilityRequest>, n: nat, catalog: Probe -> Response): seq<Probe>
    requires n <= |items|
  {
    if n == 0 then [] else Done(items, n - 1, catalog) + ItemProbes(items[n - 1].itemId, catalog)
  }

  /** While items pass, the trace is the lookups done so far followed by the trace of the rest. */
  lemma {:induction false} TraceSplit(items: seq<AvailabilityRequest>, n: nat, catalog: Probe -> Response)
    requires n <= |items|
    requires forall k :: 0 <= k < n ==> ItemAvailable(items[k].itemId, catalog)
    ensures Trace(items, catalog) == Done(items, n, catalog) + Trace(items[n..], catalog)
  {
    if n > 0 {
      TraceSplit(items, n - 1, catalog);
      assert items[n - 1..][1..] == items[n..];
    }
  }

  /** A failing item after passing ones ends the trace with its own lookups. */
  lemma FailedItemEndsTrace(items: seq<AvailabilityRequest>, i: nat, catalog: Probe -> Response)
    requires i < |items| && !ItemAvailable(items[i].itemId, catalog)
    requires forall k :: 0 <= k < i ==> ItemAvailable(items[k].itemId, catalog)
    ensures Trace(items, catalog) == Done(items, i, catalog) + ItemProbes(items[i].itemId, catalog)
  {
    TraceSplit(items, i, catalog);
    var rest := items[i..];
    assert rest != [] && rest[0] == items[i];
    assert Trace(rest, catalog) == ItemProbes(items[i].itemId, catalog);
  }

  /** After the first failing item, no later item is looked up. */
  lemma {:induction false} StopsAtFirstFailure(items: seq<AvailabilityRequest>, catalog: Probe -> Response, k: nat)
    requires k < |items| && !ItemAvailable(items[k].itemId, catalog)
    requires forall j :: 0 <= j < k ==> ItemAvailable(items[j].itemId, catalog)
    ensures Trace(items, catalog) == Trace(items[..k + 1], catalog)
    ensures forall p :: p in Trace(items, catalog) ==> exists j :: 0 <= j <= k && p.id == items[j].itemId
  {
    if k == 0 {
      assert items[..1][1..] == [];
    } else {
      StopsAtFirstFailure(items[1..], catalog, k - 1);
      assert items[..k + 1][1..] == items[1..][..k];
      forall p | p in Trace(items, catalog) ensures exists j :: 0 <= j <= k && p.id == items[j].itemId {
        if p !in ItemProbes(items[0].itemId, catalog) {
          var j :| 0 <= j <= k - 1 && p.id == items[1..][j].itemId;
          assert p.id == items[j + 1].itemId;
        }
      }
    }
  }

  /** A menu lookup always comes right after a dish lookup of the same id that answered 404. */
  lemma {:induction false} MenuOnlyAfterDishNotFound(items: seq<AvailabilityRequest>, catalog: Probe -> Response)
    ensures MenusFollowMissingDishes(Trace(items, catalog), catalog)
  {
    if items != [] {
      var id := items[0].itemId;
      var head := ItemProbes(id, catalog);
      var t := Trace(items, catalog);
      if ItemAvailable(id, catalog) {
        var tail := Trace(items[1..], catalog);
        MenuOnlyAfterDishNotFound(items[1..], catalog);
        assert t == head + tail;
        forall j | 0 <= j < |t| && t[j].Menu?
          ensures j > 0 && t[j - 1] == Dish(t[j].id) && catalog(Dish(t[j].id)) == NotFound
        {
          if j < |head| {
            assert t[j] == head[j];
          } else if j > |head| {
            var jj := j - |head|;
            assert t[j] == tail[jj] && t[j - 1] == tail[jj - 1];
          }
        }
      } else {
        assert t == head;
      }
    }
  }

  /** Every menu lookup in `t` directly follows a dish lookup of the same id that answered 404. */
  ghost predicate MenusFollowMissingDishes(t: seq<Probe>, catalog: Probe -> Response)
  {
    forall j :: 0 <= j < |t| && t[j].Menu? ==>
      j > 0 && t[j - 1] == Dish(t[j].id) && catalog(Dish(t[j].id)) == NotFound
  }

  /** Only the item ids matter: quantities never change the verdict or the lookups. */
  lemma {:induction false} QuantityIgnored(a: seq<AvailabilityRequest>, b: seq<AvailabilityRequest>, catalog: Probe -> Response)
    requires |a| == |b| && forall k :: 0 <= k < |a| ==> a[k].itemId == b[k].itemId
    ensures Trace(a, catalog) == Trace(b, catalog)
    ensures (forall k :: 0 <= k < |a| ==> ItemAvailable(a[k].itemId, catalog))
      <==> (forall k :: 0 <= k < |b| ==> ItemAvailable(b[k].itemId, catalog))
  {
    if a != [] {
      QuantityIgnored(a[1..], b[1..], catalog);
    }
  }

  /** When every item passes, every item is looked up as a dish, in order. */
  lemma {:induction false} AllAvailableProbesEveryDish(items: seq<AvailabilityRequest>, catalog: Probe -> Response)
    requires AllAvailable(items, catalog)
    ensures DishIds(Trace(items, catalog)) == seq(|items|, k requires 0 <= k < |items| => items[k].itemId)
  {
    if items != [] {
      AllAvailableProbesEveryDish(items[1..], catalog);
      DishIdsAppend(ItemProbes(items[0].itemId, catalog), Trace(items[1..], catalog));
    }
  }

  /** The ids of the dish lookups of a trace, in order. */
  function DishIds(t: seq<Probe>): seq<string>
  {
    if t == [] then [] else (if t[0].Dish? then [t[0].id] else []) + DishIds(t[1..])
  }

  lemma {:induction false} DishIdsAppend(a: seq<Probe>, b: seq<Probe>)
    ensures DishIds(a + b) == DishIds(a) + DishIds(b)
  {
    if a != [] {
      var first := if a[0].Dish? then [a[0].id] else [];
      assert (a + b)[0] == a[0];
      assert (a + b)[1..] == a[1..] + b;
      DishIdsAppend(a[1..], b);
      calc {
        DishIds(a + b);
        first + DishIds(a[1..] + b);
        first + (DishIds(a[1..]) + DishIds(b));
        (first + DishIds(a[1..])) + DishIds(b);
      }
      assert DishIds(a) == first + DishIds(a[1..]);
    } else {
      assert a + b == b;
    }
  }
}
