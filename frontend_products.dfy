/** The storefront's products API client: the query string built from the filters
    and the paths of the single-resource requests. */
module ProductsApi {
  import opened Wrappers
  import Text
  import Percent

  /** A filter property's value as it reaches `String(value)`. */
  datatype FilterValue = Undefined | Null | Num(n: int) | Str(s: string) | Bool(b: bool)

  /** `Object.entries(filters)`, in insertion order. */
  type Filters = seq<(string, FilterValue)>

  predicate Nullish(v: FilterValue) { v.Undefined? || v.Null? }

  /** `String(value)` for a value that is not null or undefined. */
  function JsString(v: FilterValue): string
    requires !Nullish(v)
  {
    match v
    case Num(n) => Text.IntToString(n)
    case Str(s) => s
    case Bool(b) => if b then "true" else "false"
  }

  /** The pairs appended for the entries, in order: nullish values are skipped. */
  function Kept(entries: Filters): (r: seq<(string, string)>)
    ensures |r| <= |entries|
  {
    if |entries| == 0 then []
    else
      var last := entries[|entries| - 1];
      Kept(entries[..|entries| - 1]) + (if Nullish(last.1) then [] else [(last.0, JsString(last.1))])
  }

  /** Exactly the entries with a defined value are kept; 0, false and "" count as defined. */
  lemma {:induction false} KeptIsEmptyIff(entries: Filters)
    ensures Kept(entries) == [] <==> forall k :: 0 <= k < |entries| ==> Nullish(entries[k].1)
  {
    if |entries| > 0 {
      var init := entries[..|entries| - 1];
      KeptIsEmptyIff(init);
      assert forall k :: 0 <= k < |init| ==> init[k] == entries[k];
    }
  }

  /** Every kept pair is `(key, String(value))` of some defined entry. */
  lemma {:induction false} KeptComesFromEntries(entries: Filters)
    ensures forall p :: p in Kept(entries) ==>
              exists k :: 0 <= k < |entries| && !Nullish(entries[k].1) && p == (entries[k].0, JsString(entries[k].1))
  {
    if |entries| > 0 {
      var init := entries[..|entries| - 1];
      KeptComesFromEntries(init);
      assert forall k :: 0 <= k < |init| ==> init[k] == entries[k];
    }
  }

  /** Every defined entry is appended. */
  lemma {:induction false} DefinedEntriesAreKept(entries: Filters)
    ensures forall k :: 0 <= k < |entries| && !Nullish(entries[k].1) ==>
              (entries[k].0, JsString(entries[k].1)) in Kept(entries)
  {
    if |entries| > 0 {
      var init := entries[..|entries| - 1];
      DefinedEntriesAreKept(init);
      assert forall k :: 0 <= k < |init| ==> init[k] == entries[k];
    }
  }

  /** `/products`, followed by `?` and the query when there is one. */
  function ProductsPath(query: string): (r: string)
    ensures query == "" ==> r == "/products"
    ensures query != "" ==> r == "/products?" + query
  {
    "/products" + (if query != "" then "?" + query else "")
  }

  /** The path has a query part exactly when some filter value is defined. */
  lemma PathHasQueryIffDefined(entries: Filters)
    ensures (ProductsPath(Percent.FormSerialize(Kept(entries))) == "/products")
        <==> (forall k :: 0 <= k < |entries| ==> Nullish(entries[k].1))
  {
    KeptIsEmptyIff(entries);
    var q := Percent.FormSerialize(Kept(entries));
    if q != "" {
      assert ProductsPath(q)[..10] == "/products?";
    }
  }

  /** `URLSearchParams`: the pairs appended so far. */
  class SearchParams {
    var pairs: seq<(string, string)>

    constructor()
      ensures pairs == []
    {
      pairs := [];
    }

    method Append(name: string, value: string)
      modifies this
      ensures pairs == old(pairs) + [(name, value)]
    {
      pairs := pairs + [(name, value)];
    }

    function ToString(): string
      reads this
    {
      Percent.FormSerialize(pairs)
    }
  }

  /** The path `getProducts` requests for the given filters. */
  method GetProductsPath(filters: Option<Filters>) returns (path: string)
    ensures filters.None? ==> path == "/products"
    ensures filters.Some? ==> path == ProductsPath(Percent.FormSerialize(Kept(filters.value)))
  {
    var params := new SearchParams();
    if filters.Some? {
      var entries := filters.value;
      var i := 0;
      while i < |entries|
        invariant 0 <= i <= |entries|
        invariant params.pairs == Kept(entries[..i])
      {
        var (key, value) := entries[i];
        assert entries[..i + 1][..i] == entries[..i];
        if !Nullish(value) {
          params.Append(key, JsString(value));
        }
        i := i + 1;
      }
      assert entries[..i] == entries;
    }
    var query := params.ToString();
    path := ProductsPath(query);
  }

  /** `getProduct(id)` and `getCategory(id)`. */
  function ProductPath(id: string): (r: string)
    ensures Text.StartsWith(r, "/products/") && r[|"/products/"|..] == id
  {
    "/products/" + id
  }

  function CategoryPath(id: string): (r: string)
    ensures Text.StartsWith(r, "/categories/") && r[|"/categories/"|..] == id
  {
    "/categories/" + id
  }
}
