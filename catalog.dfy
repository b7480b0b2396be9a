/** The storefront's records: products as the backend returns them, the pending
    form, the three views, and the two pure list operations the handlers use
    (removal by id and the featured prefix shown on the home page). */
module Catalog {

  /** A product as the client reads it: the fields the pages display, and the id that
      delete matches on. Fields of the cached response object that the client never
      reads (such as the backend's creation date) are not modelled. The price is kept
      as the number the backend sent; it is only ever displayed, never computed with. */
  datatype Product = Product(
    id: string,
    nom: string,
    prix: real,
    image: string,
    description: string,
    categorie: string)

  /** The three pages; `currentView` is only ever set to one of these. */
  datatype View = Home | Products | Add

  /** The `name` attributes of the five inputs bound to the form. */
  datatype Field = Nom | Prix | Image | Description | Categorie

  /** The pending form: five text fields, price still as entered text. */
  datatype Form = Form(
    nom: string,
    prix: string,
    image: string,
    description: string,
    categorie: string)
  {
    /** The value of one field, as read through its input's `name`. */
    function Get(f: Field): string
    {
      match f
      case Nom => nom
      case Prix => prix
      case Image => image
      case Description => description
      case Categorie => categorie
    }

    /** The form with field `f` replaced by `v` (the spread-and-override update). */
    function With(f: Field, v: string): (r: Form)
      ensures r.Get(f) == v
      ensures forall g :: g != f ==> r.Get(g) == Get(g)
    {
      match f
      case Nom => this.(nom := v)
      case Prix => this.(prix := v)
      case Image => this.(image := v)
      case Description => this.(description := v)
      case Categorie => this.(categorie := v)
    }
  }

  /** The form as it starts and as it is reset after a successful submission. */
  function EmptyForm(): (r: Form)
    ensures forall f :: r.Get(f) == ""
  {
    Form("", "", "", "", "")
  }

  /** Two forms that agree on every field are the same form. */
  lemma FormExtensionality(a: Form, b: Form)
    requires forall f :: a.Get(f) == b.Get(f)
    ensures a == b
  {
    assert a.nom == a.Get(Nom) == b.Get(Nom) == b.nom;
    assert a.prix == a.Get(Prix) == b.Get(Prix) == b.prix;
    assert a.image == a.Get(Image) == b.Get(Image) == b.image;
    assert a.description == a.Get(Description) == b.Get(Description) == b.description;
    assert a.categorie == a.Get(Categorie) == b.Get(Categorie) == b.categorie;
  }

  /** Editing one field twice keeps only the last value; editing two different fields
      commutes. */
  lemma WithLastWins(form: Form, f: Field, v: string, w: string)
    ensures form.With(f, v).With(f, w) == form.With(f, w)
  {
  }

  lemma WithCommutes(form: Form, f: Field, v: string, g: Field, w: string)
    requires f != g
    ensures form.With(f, v).With(g, w) == form.With(g, w).With(f, v)
  {
  }

  /** The collection with every product whose id is `id` dropped, the others kept in
      order (the `filter(p => p.id !== productId)` of the delete handler). */
  function RemoveById(ps: seq<Product>, id: string): (r: seq<Product>)
    ensures |r| <= |ps|
    ensures forall p :: p in r <==> p in ps && p.id != id
  {
    if ps == [] then []
    else if ps[0].id == id then RemoveById(ps[1..], id)
    else [ps[0]] + RemoveById(ps[1..], id)
  }

  /** How many products in `ps` carry the id `id`. */
  function CountId(ps: seq<Product>, id: string): (n: nat)
    ensures n <= |ps|
    ensures n == 0 <==> forall p :: p in ps ==> p.id != id
  {
    if ps == [] then 0
    else (if ps[0].id == id then 1 else 0) + CountId(ps[1..], id)
  }

  /** `a` can be obtained from `b` by deleting entries, without reordering. */
  ghost predicate IsSubsequence(a: seq<Product>, b: seq<Product>)
    decreases |b|
  {
    if a == [] then true
    else if b == [] then false
    else (a[0] == b[0] && IsSubsequence(a[1..], b[1..])) || IsSubsequence(a, b[1..])
  }

  /** Removal keeps the surviving products in their original order. */
  lemma {:induction false} RemoveByIdIsSubsequence(ps: seq<Product>, id: string)
    ensures IsSubsequence(RemoveById(ps, id), ps)
    decreases |ps|
  {
    if ps != [] {
      RemoveByIdIsSubsequence(ps[1..], id);
      var rest := RemoveById(ps[1..], id);
      if ps[0].id != id {
        assert RemoveById(ps, id) == [ps[0]] + rest;
        assert ([ps[0]] + rest)[1..] == rest;
      } else if rest != [] {
        assert RemoveById(ps, id) == rest;
      }
    }
  }

  /** Removal drops exactly the matching entries: the length falls by their number. */
  lemma {:induction false} RemoveByIdLength(ps: seq<Product>, id: string)
    ensures |RemoveById(ps, id)| == |ps| - CountId(ps, id)
    decreases |ps|
  {
    if ps != [] {
      RemoveByIdLength(ps[1..], id);
    }
  }

  /** Removal works entry by entry: removing from a concatenation is the concatenation
      of the removals. Together with the one-entry case this pins the result down. */
  lemma {:induction false} RemoveByIdConcat(a: seq<Product>, b: seq<Product>, id: string)
    ensures RemoveById(a + b, id) == RemoveById(a, id) + RemoveById(b, id)
    decreases |a|
  {
    if a == [] {
      assert a + b == b;
    } else {
      assert (a + b)[0] == a[0];
      assert (a + b)[1..] == a[1..] + b;
      RemoveByIdConcat(a[1..], b, id);
    }
  }

  lemma RemoveByIdSingleton(p: Product, id: string)
    ensures RemoveById([p], id) == if p.id == id then [] else [p]
  {
  }

  /** Removing an id no product carries leaves the collection as it was. */
  lemma {:induction false} RemoveByIdAbsent(ps: seq<Product>, id: string)
    requires forall p :: p in ps ==> p.id != id
    ensures RemoveById(ps, id) == ps
    decreases |ps|
  {
    if ps != [] {
      assert ps[0] in ps;
      assert forall p :: p in ps[1..] ==> p in ps;
      RemoveByIdAbsent(ps[1..], id);
      assert ps == [ps[0]] + ps[1..];
    }
  }

  /** Removing an id that is present makes the collection strictly shorter. */
  lemma RemoveByIdPresent(ps: seq<Product>, id: string)
    requires exists p :: p in ps && p.id == id
    ensures |RemoveById(ps, id)| < |ps|
  {
  }

  /** A second removal of the same id changes nothing. */
  lemma RemoveByIdIdempotent(ps: seq<Product>, id: string)
    ensures RemoveById(RemoveById(ps, id), id) == RemoveById(ps, id)
  {
  }

  /** The featured products on the home page: `slice(0, 3)`, the first three
      products, or all of them when there are fewer. */
  function Featured(ps: seq<Product>): (r: seq<Product>)
    ensures r <= ps
    ensures |r| <= 3
    ensures |ps| >= 3 ==> |r| == 3
    ensures |ps| < 3 ==> r == ps
  {
    if |ps| <= 3 then ps else ps[..3]
  }

  /** Appending a product (a successful create) changes the featured list only while
      there are fewer than three products. */
  lemma FeaturedAfterAppend(ps: seq<Product>, p: Product)
    ensures |ps| >= 3 ==> Featured(ps + [p]) == Featured(ps)
    ensures |ps| < 3 ==> Featured(ps + [p]) == ps + [p]
  {
  }
}
