/** The pure read-outs of the store's state: which page block is rendered and what
    each block shows of the state. Markup and styling are not modelled; a page is the
    data it displays. */
module Pages {
  import opened Catalog

  /** The Products page shows either the loading spinner or the grid of all products. */
  datatype ProductsBody = Spinner | Grid(items: seq<Product>)

  datatype Page =
    | HomePage(featured: seq<Product>)
    | ProductsPage(count: nat, body: ProductsBody, emptyPrompt: bool)
    | AddPage(form: Form, submitDisabled: bool, submitLabel: string)

  const SubmitIdleLabel := "Ajouter le produit"
  const SubmitBusyLabel := "Ajout en cours..."

  /** The Home block: the first three products of the cached collection, or all of
      them when there are fewer. */
  function HomeOf(ps: seq<Product>): (r: Page)
    ensures r.HomePage?
    ensures r.featured <= ps
    ensures |r.featured| == if |ps| < 3 then |ps| else 3
  {
    HomePage(Featured(ps))
  }

  /** The Products block: the count is always the collection's length; while loading
      the spinner stands where the grid would be; the empty-state prompt shows exactly
      when nothing is cached and nothing is loading. */
  function ProductsOf(ps: seq<Product>, loading: bool): (r: Page)
    ensures r.ProductsPage?
    ensures r.count == |ps|
    ensures r.body.Spinner? <==> loading
    ensures !loading ==> r.body.items == ps
    ensures r.emptyPrompt <==> ps == [] && !loading
  {
    ProductsPage(|ps|, if loading then Spinner else Grid(ps), |ps| == 0 && !loading)
  }

  /** The Add block: the inputs show the pending form; submission is disabled and its
      label changes while loading. */
  function AddOf(form: Form, loading: bool): (r: Page)
    ensures r.AddPage? && r.form == form
    ensures r.submitDisabled <==> loading
    ensures r.submitLabel == if loading then SubmitBusyLabel else SubmitIdleLabel
  {
    AddPage(form, loading, if loading then SubmitBusyLabel else SubmitIdleLabel)
  }

  /** The blocks rendered under the navigation bar: three independent conditionals on
      the current view, of which exactly one holds. */
  function Screen(view: View, ps: seq<Product>, loading: bool, form: Form): (r: seq<Page>)
    ensures |r| == 1
    ensures r[0].HomePage? <==> view == Home
    ensures r[0].ProductsPage? <==> view == Products
    ensures r[0].AddPage? <==> view == Add
    ensures view == Home ==> r[0] == HomeOf(ps)
    ensures view == Products ==> r[0] == ProductsOf(ps, loading)
    ensures view == Add ==> r[0] == AddOf(form, loading)
  {
    (if view == Home then [HomeOf(ps)] else [])
    + (if view == Products then [ProductsOf(ps, loading)] else [])
    + (if view == Add then [AddOf(form, loading)] else [])
  }
}
