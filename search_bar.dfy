/** The header search box with its dropdown of matching products. */
module SearchBar {
  import opened Wrappers
  import opened Seqs
  import opened Text
  import opened Catalog

  class SearchBox {
    var query: string
    var isOpen: bool
    var products: seq<Product>
    var loading: bool

    constructor ()
      ensures query == "" && !isOpen && products == [] && loading
    {
      query := "";
      isOpen := false;
      products := [];
      loading := true;
    }

    /** `filteredProducts`: the loaded products whose name matches the query, in order. */
    function FilteredProducts(): (r: seq<Product>)
      reads this
      ensures IsSubsequence(r, products)
      ensures forall i :: 0 <= i < |r| ==> NameMatches(r[i].name, query)
      ensures forall i :: 0 <= i < |products| && NameMatches(products[i].name, query) ==> products[i] in r
      ensures forall x :: multiset(r)[x] == if NameMatches(x.name, query) then multiset(products)[x] else 0
      ensures query == "" ==> r == products
    {
      if query == "" then NameFilterEmptyQuery(products); NameFilter(products, query)
      else NameFilter(products, query)
    }

    /** The dropdown renders when it is open and the query is non-empty. */
    predicate DropdownVisible()
      reads this
    {
      isOpen && query != ""
    }

    /** The mount-time fetch: its result, or an empty list when it fails or is empty. */
    method LoadProducts(response: Option<seq<Product>>)
      modifies this
      ensures products == (if response.Some? then response.value else [])
      ensures !loading && query == old(query) && isOpen == old(isOpen)
    {
      products := if response.Some? then response.value else [];
      loading := false;
    }

    /** Typing: sets the query and opens the dropdown, which then shows iff the text is non-empty. */
    method OnChange(value: string)
      modifies this
      ensures query == value && isOpen
      ensures DropdownVisible() <==> value != ""
      ensures products == old(products) && loading == old(loading)
    {
      query := value;
      isOpen := true;
    }

    /** Focusing the box opens the dropdown without touching the query. */
    method OnFocus()
      modifies this
      ensures isOpen && query == old(query)
      ensures DropdownVisible() <==> query != ""
      ensures products == old(products) && loading == old(loading)
    {
      isOpen := true;
    }

    /** Following a result closes the dropdown and clears the query. */
    method ChooseResult()
      modifies this
      ensures !isOpen && query == ""
      ensures !DropdownVisible()
      ensures products == old(products) && loading == old(loading)
    {
      isOpen := false;
      query := "";
    }
  }
}
