/** The storefront's state store and its event handlers. Each handler runs as one
    atomic step on the current state; what the network and the confirmation dialog
    decide is passed in, and what the handler sends and shows is appended to two logs. */
module StoreApp {
  import opened Catalog
  import opened Effects
  import opened Pages

  class Store {
    /** The cached product collection. */
    var products: seq<Product>
    /** The page shown under the navigation bar. */
    var currentView: View
    /** Set while a list or create request is in flight. */
    var loading: bool
    /** The values of the form's inputs. */
    var formData: Form
    /** Every `alert` and `console.error`, in order. */
    var notices: seq<Notice>
    /** Every request sent to the backend, in order. */
    var requests: seq<Request>

    /** Between events nothing is loading, and every create or delete request has
        produced exactly one alert while list requests have produced none. */
    ghost predicate Valid()
      reads this
    {
      !loading && AlertCount(notices) == MutationCount(requests)
    }

    /** The page blocks the current state renders: exactly one, the block of the
        current view, showing the store's own products, loading flag and form. */
    function Rendered(): (r: seq<Page>)
      reads this
      ensures |r| == 1
      ensures currentView == Home ==> r[0] == HomeOf(products)
      ensures currentView == Products ==> r[0] == ProductsOf(products, loading)
      ensures currentView == Add ==> r[0] == AddOf(formData, loading)
    {
      Screen(currentView, products, loading, formData)
    }

    /** The initial state, before the mount-time list request. */
    constructor ()
      ensures Valid()
      ensures products == [] && currentView == Home && !loading && formData == EmptyForm()
      ensures notices == [] && requests == []
    {
      products := [];
      currentView := Home;
      loading := false;
      formData := EmptyForm();
      notices := [];
      requests := [];
    }

    /** List: replace the collection on success; otherwise log to the console only.
        The loading flag is cleared on every path. */
    method FetchProducts(o: Outcome<seq<Product>>)
      requires Valid()
      modifies this
      ensures Valid()
      ensures requests == old(requests) + [ListRequest]
      ensures Classify(o).Loaded? ==> products == Classify(o).value && notices == old(notices)
      ensures Classify(o).Rejected? ==>
        products == old(products) && notices == old(notices) + [ConsoleError(LoadFailedText)]
      ensures Classify(o).Failed? ==>
        products == old(products) && notices == old(notices) + [ConsoleError(LoadNetworkText)]
      ensures AlertCount(notices) == AlertCount(old(notices))
      ensures !loading && currentView == old(currentView) && formData == old(formData)
    {
      loading := true;
      requests := requests + [ListRequest];
      MutationCountAppend(old(requests), [ListRequest]);
      var branch := Classify(o);
      if branch.Loaded? {
        products := branch.value;
      } else {
        var tail := if branch.Rejected? then [ConsoleError(LoadFailedText)]
                    else [ConsoleError(LoadNetworkText)];
        AlertCountAppend(notices, tail);
        notices := notices + tail;
      }
      loading := false;
    }

    /** Create: submit the form; on success append the returned product, reset the
        form, confirm with an alert and show the Products page; on failure change
        nothing but raise one alert. The loading flag is cleared on every path. */
    method AddProduct(o: Outcome<Product>)
      requires Valid()
      modifies this
      ensures Valid()
      ensures requests == old(requests) + [CreateRequest(old(formData))]
      ensures Classify(o).Loaded? ==>
        && products == old(products) + [Classify(o).value]
        && formData == EmptyForm()
        && currentView == Products
        && notices == old(notices) + [Alert(AddedText)]
      ensures !Classify(o).Loaded? ==>
        products == old(products) && formData == old(formData) && currentView == old(currentView)
      ensures Classify(o).Rejected? ==> notices == old(notices) + [Alert(AddFailedText)]
      ensures Classify(o).Failed? ==>
        notices == old(notices) + [ConsoleError(CaughtText), Alert(NetworkAlertText)]
      ensures AlertCount(notices) == AlertCount(old(notices)) + 1
      ensures !loading
    {
      loading := true;
      MutationCountAppend(requests, [CreateRequest(formData)]);
      requests := requests + [CreateRequest(formData)];
      var branch := Classify(o);
      var tail: seq<Notice>;
      if branch.Loaded? {
        products := products + [branch.value];
        formData := EmptyForm();
        tail := [Alert(AddedText)];
        currentView := Products;
      } else if branch.Rejected? {
        tail := [Alert(AddFailedText)];
      } else {
        tail := [ConsoleError(CaughtText), Alert(NetworkAlertText)];
      }
      assert AlertCount(tail) == 1;
      AlertCountAppend(notices, tail);
      notices := notices + tail;
      loading := false;
    }

    /** Delete: only once confirmed is the request sent; on success every product with
        that id leaves the collection; every settled request raises one alert. The
        loading flag, the view and the form are never touched. */
    method DeleteProduct(id: string, confirmed: bool, o: Outcome<()>)
      requires Valid()
      modifies this
      ensures Valid()
      ensures loading == old(loading) && currentView == old(currentView) && formData == old(formData)
      ensures !confirmed ==>
        products == old(products) && notices == old(notices) && requests == old(requests)
      ensures confirmed ==> requests == old(requests) + [DeleteRequest(id)]
      ensures confirmed && o.Ok() ==>
        products == RemoveById(old(products), id) && notices == old(notices) + [Alert(DeletedText)]
      ensures confirmed && o.Response? && !o.Ok() ==>
        products == old(products) && notices == old(notices) + [Alert(DeleteFailedText)]
      ensures confirmed && o.NetworkError? ==>
        products == old(products)
        && notices == old(notices) + [ConsoleError(CaughtText), Alert(NetworkAlertText)]
    {
      if confirmed {
        MutationCountAppend(requests, [DeleteRequest(id)]);
        requests := requests + [DeleteRequest(id)];
        var tail: seq<Notice>;
        if o.NetworkError? {
          tail := [ConsoleError(CaughtText), Alert(NetworkAlertText)];
        } else if o.Ok() {
          products := RemoveById(products, id);
          tail := [Alert(DeletedText)];
        } else {
          tail := [Alert(DeleteFailedText)];
        }
        AlertCountAppend(notices, tail);
        notices := notices + tail;
      }
    }

    /** An input's change event: the field it names takes the new value. */
    method HandleInputChange(name: Field, value: string)
      requires Valid()
      modifies this
      ensures Valid()
      ensures formData == old(formData).With(name, value)
      ensures formData.Get(name) == value
      ensures forall g :: g != name ==> formData.Get(g) == old(formData).Get(g)
      ensures products == old(products) && currentView == old(currentView) && loading == old(loading)
      ensures notices == old(notices) && requests == old(requests)
    {
      formData := formData.With(name, value);
    }

    /** A navigation click: the view is set unconditionally, nothing else changes. */
    method SetCurrentView(v: View)
      requires Valid()
      modifies this
      ensures Valid()
      ensures currentView == v
      ensures products == old(products) && loading == old(loading) && formData == old(formData)
      ensures notices == old(notices) && requests == old(requests)
    {
      currentView := v;
    }
  }

  /** A list response with one chair, then a visit to the Products page: one product
      counted and listed. */
  method ListedChairIsShown()
  {
    var chair := Product("1", "Chaise", 49.99, "u", "d", "Maison");
    var s := new Store();
    s.FetchProducts(Response(200, Some([chair])));
    s.SetCurrentView(Products);
    var page := s.Rendered()[0];
    assert page == ProductsPage(1, Grid([chair]), false);
  }

  /** Filling the form from the Add page and getting a 201 with the new product: the
      product is appended and the Products page is shown with an empty form. */
  method CreatedLampIsAppended()
  {
    var s := new Store();
    s.SetCurrentView(Add);
    s.HandleInputChange(Nom, "Lampe");
    s.HandleInputChange(Prix, "19.5");
    s.HandleInputChange(Categorie, "Maison");
    var sent := s.formData;
    var lamp := Product("7", "Lampe", 19.5, "", "", "Maison");
    s.AddProduct(Response(201, Some(lamp)));
    assert s.requests == [CreateRequest(sent)] && sent.prix == "19.5";
    assert s.products == [lamp] && s.currentView == Products && s.formData == EmptyForm();
  }

  /** A rejected create, submitted twice: each time the cache, the form and the view
      stay as they were and one more alert is raised. */
  method RejectedCreateChangesNothing(ps: seq<Product>)
  {
    var s := new Store();
    s.FetchProducts(Response(200, Some(ps)));
    s.SetCurrentView(Add);
    s.HandleInputChange(Nom, "Lampe");
    var form := s.formData;
    s.AddProduct(Response(400, None));
    s.AddProduct(Response(400, None));
    assert s.products == ps && s.formData == form && s.currentView == Add;
    assert AlertCount(s.notices) == 2;
  }

  /** A confirmed delete answered by 204 drops the product; a declined one sends
      nothing. */
  method DeletedChairIsGone(ps: seq<Product>)
  {
    var s := new Store();
    s.FetchProducts(Response(200, Some(ps)));
    s.DeleteProduct("1", false, NetworkError);
    assert s.products == ps && s.requests == [ListRequest];
    s.DeleteProduct("1", true, Response(204, None));
    assert forall p :: p in s.products ==> p.id != "1";
  }
}
