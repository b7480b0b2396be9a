/** What the handlers exchange with the outside world: the outcome of a network call
    (an input to the model), the requests they issue and the notifications they raise
    (both recorded as logs). */
module Effects {
  import opened Catalog

  datatype Option<T> = None | Some(value: T)

  /** The settled result of a `fetch`: either a response with its status and, when the
      handler reads it, its body (`None` when `response.json()` throws), or a network
      error (the promise rejects). */
  datatype Outcome<T> = Response(status: int, body: Option<T>) | NetworkError
  {
    /** `response.ok`: a status in the range 200 to 299. */
    predicate Ok()
    {
      Response? && 200 <= status <= 299
    }
  }

  /** Which branch of a handler that reads the response body runs: the success path with
      the parsed body, the non-ok `else` path, or the `catch` path. An ok response whose
      body does not parse throws inside the `try` and so ends in `catch` too. */
  datatype Branch<T> = Loaded(value: T) | Rejected | Failed

  function Classify<T>(o: Outcome<T>): (b: Branch<T>)
    ensures b.Loaded? <==> o.Ok() && o.body.Some?
    ensures b.Loaded? ==> b.value == o.body.value
    ensures b.Rejected? <==> o.Response? && !o.Ok()
    ensures b.Failed? <==> o.NetworkError? || (o.Ok() && o.body.None?)
  {
    match o
    case NetworkError => Failed
    case Response(status, body) =>
      if !o.Ok() then Rejected
      else if body.Some? then Loaded(body.value)
      else Failed
  }

  /** A request sent to the backend. A create carries the form as submitted (the
      coercion of its price text to a number is not modelled). */
  datatype Request = ListRequest | CreateRequest(form: Form) | DeleteRequest(id: string)

  /** A user-visible, blocking `alert`, or a `console.error` the user does not see. */
  datatype Notice = Alert(text: string) | ConsoleError(text: string)

  const LoadFailedText := "Erreur lors du chargement des produits"
  const LoadNetworkText := "Erreur réseau:"
  const AddedText := "Produit ajouté avec succès !"
  const AddFailedText := "Erreur lors de l'ajout du produit"
  const CaughtText := "Erreur:"
  const NetworkAlertText := "Erreur réseau"
  const DeletedText := "Produit supprimé avec succès !"
  const DeleteFailedText := "Erreur lors de la suppression"

  /** The number of alerts in a notification log. */
  function AlertCount(ns: seq<Notice>): (n: nat)
    ensures n <= |ns|
  {
    if ns == [] then 0
    else (if ns[0].Alert? then 1 else 0) + AlertCount(ns[1..])
  }

  /** The number of requests that create or delete a product. */
  function MutationCount(rs: seq<Request>): (n: nat)
    ensures n <= |rs|
  {
    if rs == [] then 0
    else (if rs[0].ListRequest? then 0 else 1) + MutationCount(rs[1..])
  }

  /** Counting alerts distributes over appending to the log. */
  lemma {:induction false} AlertCountAppend(a: seq<Notice>, b: seq<Notice>)
    ensures AlertCount(a + b) == AlertCount(a) + AlertCount(b)
    decreases |a|
  {
    if a == [] {
      assert a + b == b;
    } else {
      assert (a + b)[0] == a[0];
      assert (a + b)[1..] == a[1..] + b;
      AlertCountAppend(a[1..], b);
    }
  }

  /** Counting mutations distributes over appending to the request log. */
  lemma {:induction false} MutationCountAppend(a: seq<Request>, b: seq<Request>)
    ensures MutationCount(a + b) == MutationCount(a) + MutationCount(b)
    decreases |a|
  {
    if a == [] {
      assert a + b == b;
    } else {
      assert (a + b)[0] == a[0];
      assert (a + b)[1..] == a[1..] + b;
      MutationCountAppend(a[1..], b);
    }
  }
}
