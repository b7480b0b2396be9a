# Ecomali storefront: a Dafny model of the client-side state store

The storefront is a single-page React component (`frontend/src/App.js`). It keeps a cached
list of products, the current page (`home`, `products` or `add`), a loading flag and a
five-field form. It lists, creates and deletes products through a REST backend. This
project models that component's state and its event handlers, and proves what each handler
does to the state:

- `fetchProducts` replaces the cache on success and logs to the console otherwise.
- `addProduct` appends the created product, resets the form and shows the Products page on
  success. On failure it changes nothing and raises one alert.
- `deleteProduct` does nothing unless confirmed. Once confirmed, on success it removes every
  product with the given id and keeps the rest in order. Every outcome raises one alert.
- `handleInputChange` updates exactly one form field.
- Navigation sets the view unconditionally.

It also models the pure read-outs: the featured prefix on Home, what the Products page
shows, and the rule that exactly one page block is rendered.

Modules:

- `Catalog` (`catalog.dfy`): products, the form, the views, removal by id and the
  featured prefix, with their lemmas.
- `Effects` (`effects.dfy`): the outcome of a network call (an input to the model), which
  handler branch it selects, the requests sent and the notifications raised.
- `Pages` (`pages.dfy`): the page blocks as data, and the selection of the block to render.
- `StoreApp` (`store.dfy`): the `Store` class with its fields and handler methods. It also
  holds four client methods that encode example scenarios of the handlers' behaviour as
  verified assertions (`ListedChairIsShown`, `CreatedLampIsAppended`,
  `RejectedCreateChangesNothing`, `DeletedChairIsGone`); they are verified, not executed.

The network and the confirmation dialog are inputs. Each handler takes an
`Outcome<T> = Response(status, body) | NetworkError`. `Outcome.Ok()` is `response.ok`,
a status from 200 to 299. A body of `None` means `response.json()` threw. In the list and
create handlers that throw sends control into the `catch` block, which `Classify` makes
explicit. The delete handler takes `confirmed: bool` as the result of `window.confirm`.
Every `alert` and `console.error` is added to the `notices` log. Every request sent is added
to the `requests` log. The class invariant `Store.Valid()` says two things hold between events:
the loading flag is clear, and the number of alerts equals the number of create and delete
requests. So each create or delete raises exactly one alert and a list never raises one.

## Model

| member | source | states |
|---|---|---|
| `StoreApp.Store.constructor` | frontend/src/App.js:5-14 | The store starts with no products, the home view, loading clear, an all-empty form and empty logs. |
| `StoreApp.Store.FetchProducts` | frontend/src/App.js:19-34 | One list request is sent. On an ok response with a parsed body the cache becomes exactly that sequence. On a non-ok status, a network error or an unparsable body the cache is unchanged and one console error (no alert) is logged. Loading ends clear; view and form are unchanged. |
| `StoreApp.Store.AddProduct` | frontend/src/App.js:37-74 | One create request is sent, carrying the form as it was. On success the cache is the old cache with the returned product at the end, the form is all empty, the view is Products and the success alert is raised. On failure cache, form and view are unchanged and exactly one alert is raised (after a console error for a thrown error). Loading ends clear. |
| `StoreApp.Store.DeleteProduct` | frontend/src/App.js:77-95 | Not confirmed: nothing changes and no request is sent. Confirmed: one delete request is sent; on an ok status the cache is `RemoveById` of the old cache; otherwise the cache is unchanged. Each outcome raises exactly one alert. Loading, view and form are never touched. |
| `StoreApp.Store.HandleInputChange` | frontend/src/App.js:103-109 | The named field takes the new value, every other field keeps its value, and nothing outside the form changes. |
| `StoreApp.Store.SetCurrentView` | frontend/src/App.js:119 | The view becomes the requested one with no guard, even when data is not loaded; nothing else changes. The same holds for the clicks at lines 125, 131, 150 and 234. |
| `Catalog.Form.With` | frontend/src/App.js:105-108 | The updated form reads the new value at the named field and the old value at every other field. |
| `Catalog.WithLastWins` | frontend/src/App.js:103-109 | Two successive edits of the same field leave only the last value. |
| `Catalog.WithCommutes` | frontend/src/App.js:103-109 | Edits of two different fields give the same form in either order. |
| `Catalog.EmptyForm` | frontend/src/App.js:56-62 | The reset form reads the empty string at every field. |
| `Catalog.RemoveById` | frontend/src/App.js:85 | A product is in the result exactly when it is in the input and its id differs from the removed id; the result is no longer than the input. |
| `Catalog.RemoveByIdIsSubsequence` | frontend/src/App.js:85 | The surviving products keep their original relative order. |
| `Catalog.RemoveByIdLength` | frontend/src/App.js:85 | The result is shorter than the input by exactly the number of products carrying the id. |
| `Catalog.RemoveByIdConcat` | frontend/src/App.js:85 | Removal from a concatenation is the concatenation of the removals, so it acts entry by entry. |
| `Catalog.RemoveByIdSingleton` | frontend/src/App.js:85 | A single product is dropped exactly when its id matches. |
| `Catalog.RemoveByIdAbsent` | frontend/src/App.js:85 | Removing an id that no product carries leaves the cache unchanged. |
| `Catalog.RemoveByIdPresent` | frontend/src/App.js:85 | Removing an id that some product carries makes the cache strictly shorter. |
| `Catalog.RemoveByIdIdempotent` | frontend/src/App.js:85 | Removing the same id a second time changes nothing. |
| `Catalog.Featured` | frontend/src/App.js:161 | The featured list is a prefix of the cache with min(3, size) entries. |
| `Catalog.FeaturedAfterAppend` | frontend/src/App.js:161 | Appending a product changes the featured list only when the cache held fewer than three products. |
| `Effects.Classify` | frontend/src/App.js:21-31 | An outcome takes the success branch exactly when the status is ok and the body parses. It takes the `else` branch exactly when a response has a non-ok status. It takes the `catch` branch exactly on a network error or an ok response whose body does not parse. |
| `Pages.HomeOf` | frontend/src/App.js:157-181 | Home shows the first min(3, size) products of the cache, in cache order. |
| `Pages.ProductsOf` | frontend/src/App.js:191-239 | The count equals the cache size. The spinner shows exactly while loading. Otherwise the grid lists the whole cache. The empty-state prompt shows exactly when the cache is empty and nothing is loading. |
| `Pages.AddOf` | frontend/src/App.js:319-325 | The Add page shows the pending form. Submission is disabled exactly while loading, and its label reflects loading. |
| `StoreApp.Store.Rendered` | frontend/src/App.js:333-341 | The main render shows exactly one block, the one of the current view, and it is that view's read-out of the store's own state: `HomeOf(products)`, `ProductsOf(products, loading)` or `AddOf(formData, loading)`, so Home shows the first min(3, size) products, the grid and empty prompt follow the cache and the loading flag, and submit is disabled exactly while loading. |
| `Pages.Screen` | frontend/src/App.js:337-339 | Exactly one page block is rendered for each view, and it is the block of that view. |

## Left out

- HTTP transport, JSON encoding and decoding, and the `BACKEND_URL` setting (lines 16, 22, 42-51, 80-82) are network I/O. Each call's result is an `Outcome` input.
- The error object passed to `console.error` (lines 30, 69, 91) is not recorded; a notice keeps only its fixed message.
- `parseFloat` of the price text (line 49) and the `toFixed(2)` display (lines 172, 212) are floating-point behaviour. A create request carries the form as entered. A product's price is a `real` the model never computes with.
- `window.confirm` and `alert` are foreign calls. They are a `confirmed` input and entries in the `notices` log.
- The `e.preventDefault()` call and the browser's `required`, `min`, `step` and URL checks on the inputs (lines 38, 254-316) are DOM behaviour. `AddProduct` accepts any form.
- `StoreApp.Store.HandleInputChange` takes a `Field` rather than an arbitrary `name` string. The only callers are the five inputs, whose `name` attributes are exactly the five fields.
- Async interleaving is concurrency and is not modelled. Each handler is one atomic step on the current state. The handlers capture `products` in a stale closure (lines 55, 85), so a request that settles while another is in flight can lose an update; the model does not capture this. The in-flight window, when `loading` is true and the spinner shows, is therefore not a reachable state of `Store`. `Pages.ProductsOf` is stated for both values of the flag.
- The mount-time `useEffect` (lines 98-100) is a call of `FetchProducts` just after construction. React's rendering, the navigation bar's styling and the JSX markup are presentation; pages are modelled as the data they show.
- Product fields the client caches but never reads (the backend's `date_ajout`) are not modelled.
- `backend/server.py` is not part of this model. Its behaviour lives in MongoDB, together with id and date generation. `backend_test.py` is a live-network test harness and is not part of this model either.
