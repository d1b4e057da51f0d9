# Product catalogue "create product" feature — Dafny model

This project models the core of a small clean-architecture product catalogue
written in TypeScript: the `Product` entity with its validation rules,
factories and mutators; the `Either` result type; the two error hierarchies
and `HttpError`; the HTTP client vocabulary and the pure parts of the axios
adapter (error classification, header merging, body forwarding, response
adaptation); the list-backed product repository the repository test defines;
`CreateProductUseCase`; and `CreateProductViewModel`.

Everything is immutable and functional:

- a thrown `ValidationError` is a `Left` result of the entity's functions, and
  the entity's state after a throw is the state before the call (`After`);
- the clock (`now`) and the identifier generator (`id`) are parameters of
  `create` and of every mutator;
- the axios transport is a parameter `send` from the request configuration to
  an outcome: a response, or a thrown value;
- the repository's `create` is a parameter of the use case from product to how
  its promise settles, and each run records the products passed to it;
- promises are modelled by `Settled` (fulfilled with a value or rejected with
  a reason);
- the repository and the view model are state transformers over a
  `seq<Product>` and a record. The view model's listener set is an
  insertion-ordered sequence without repeats. Each listener call is logged
  with the state the listener would read.

Module layout, one per source component: `SharedTypes` (Either, Option,
Settled), `JsValues` (untyped bodies), `Text` (trim and includes),
`ApplicationErrors`, `BaseErrors`, `HttpErrors`, `HttpClient`,
`AxiosHttpClient`, `ProductEntity`, `ProductRepository`,
`CreateProductUseCase`, `CreateProductViewModel`.

`create` and `reconstruct` store the name, description and category exactly
as given, untrimmed: `validate()` (src/domain/entities/Product.ts:85-91)
calls the validators, which return trimmed values, and discards those
values. Only the `update*` methods (src/domain/entities/Product.ts:46,51,61)
store a trimmed value. Likewise `execute` in the use case answers
`Right({product})` whenever the repository's promise resolves, even when it
resolves to a `Left`.

## Model

| member | source | states |
|---|---|---|
| SharedTypes.MakeLeft | src/shared/types/either.spec.ts:4-10 | `left(v)` reports `isLeft` true and `isRight` false, and holds exactly `v` |
| SharedTypes.MakeRight | src/shared/types/either.spec.ts:12-18 | `right(v)` reports `isRight` true and `isLeft` false, and holds exactly `v` |
| SharedTypes.ExactlyOneSide | src/shared/types/either.spec.ts:4-18 | every `Either` answers exactly one of the two discriminants |
| Text.TrimIdempotent | src/domain/entities/Product.ts:93-100 | trimming a trimmed value changes nothing, so a stored trimmed field passes its length rule again |
| Text.TrimKeepsMiddle | src/domain/entities/Product.ts:94-100 | `trim` removes only whitespace and keeps a contiguous middle slice of the input |
| Text.IncludesIffInfix | src/domain/repositories/ProductRepository.spec.ts:27 | `includes` holds exactly when the search text occurs as a contiguous slice of the name |
| ApplicationErrors.KindOfName | src/shared/errors/application.error.ts:2-7 | the seven class names are distinct; a name reads back to the kind that has it, and to none otherwise |
| ApplicationErrors.NameIdentifiesKind | src/shared/errors/application.error.ts:2-7 | every kind's class name reads back to that kind, so no two kinds share a name and `name` identifies the kind |
| ApplicationErrors.NewValidationError | src/shared/errors/application.error.ts:9-13 | name "ValidationError"; the message is kept verbatim |
| ApplicationErrors.NewNotFoundError | src/shared/errors/application.error.ts:15-19 | name "NotFoundError"; the message is the entity followed by " not found" |
| ApplicationErrors.NewUnauthorizedError | src/shared/errors/application.error.ts:21-25 | name "UnauthorizedError"; fixed message "Unauthorized access" |
| ApplicationErrors.NewForbiddenError | src/shared/errors/application.error.ts:27-31 | name "ForbiddenError"; fixed message "Access forbidden" |
| ApplicationErrors.NewBadRequestError | src/shared/errors/application.error.ts:33-37 | name "BadRequestError"; the message is kept verbatim |
| ApplicationErrors.NewConflictError | src/shared/errors/application.error.ts:39-43 | name "ConflictError"; the message is kept verbatim |
| ApplicationErrors.NewInternalError | src/shared/errors/application.error.ts:45-49 | name "InternalError"; the inner error's message when present and non-empty, else "Internal server error"; never empty |
| BaseErrors.NameIdentifiesKind | src/shared/errors/base.error.ts:2-7 | two base errors have the same name exactly when they are of the same kind |
| BaseErrors.NewValidationError | src/shared/errors/base.error.ts:9-13 | name "ValidationError"; the message is kept verbatim |
| BaseErrors.NewNotFoundError | src/shared/errors/base.error.ts:15-19 | name "NotFoundError"; the message is the entity followed by " not found" |
| BaseErrors.NewUnexpectedError | src/shared/errors/base.error.ts:21-25 | name "UnexpectedError"; message always "An unexpected error occurred" |
| HttpErrors.NewHttpError | src/shared/errors/http.error.ts:4-11 | a `BaseError` kind named "HttpError"; message and status code as given; a body that is not supplied reads back as `undefined` |
| HttpClient.StatusOf | src/shared/interfaces/HttpClient.ts:12-21 | a number names a status-code member exactly when that member's code is the number |
| HttpClient.MethodNameInjective | src/shared/interfaces/HttpClient.ts:4-10 | the five method strings are distinct, so the string handed to the transport identifies the method |
| HttpClient.CodesDistinct | src/shared/interfaces/HttpClient.ts:12-21 | the eight codes (200, 201, 204, 400, 401, 403, 404, 500) are pairwise distinct and read back to their member |
| HttpClient.HttpRequest.Method | src/shared/interfaces/HttpClient.ts:33-77 | a request is exactly one of five shapes, and its method names the shape: each method belongs to exactly one |
| HttpClient.HttpRequest.HasData | src/shared/interfaces/HttpClient.ts:33-77 | a request has a data field exactly when its method is POST, PUT or PATCH |
| AxiosHttpClient.MergeHeaders | src/infrastructure/http/AxiosHttpClient.ts:123-128 | the merged headers always hold Content-Type; the caller's headers, Content-Type included, override the JSON default; no other key appears |
| AxiosHttpClient.MergeHeadersWellTyped | src/infrastructure/http/AxiosHttpClient.ts:123-128 | merging keeps Content-Type within the three allowed values |
| AxiosHttpClient.MergeHeadersIdempotent | src/infrastructure/http/AxiosHttpClient.ts:123-128 | merging an already merged header set changes nothing |
| AxiosHttpClient.RequestData | src/infrastructure/http/AxiosHttpClient.ts:119-121 | the body of POST, PUT and PATCH is forwarded as is; GET and DELETE forward `undefined` |
| AxiosHttpClient.RequestConfig | src/infrastructure/http/AxiosHttpClient.ts:41-48 | the transport receives the url, the method's string and the params as given, the merged headers and the forwarded body |
| AxiosHttpClient.AdaptResponse | src/infrastructure/http/AxiosHttpClient.ts:130-136 | the response's status, data and headers become status code, body and headers verbatim |
| AxiosHttpClient.HasErrorResponseAsWritten | src/infrastructure/http/AxiosHttpClient.ts:171-180 | the guard throws exactly when the response property is `null` |
| AxiosHttpClient.HandleErrorAsWritten | src/infrastructure/http/AxiosHttpClient.ts:138-158 | the source's classification completes unless an axios error has a `null` response, and agrees with the case analysis whenever it completes |
| AxiosHttpClient.RequestAsWritten | src/infrastructure/http/AxiosHttpClient.ts:38-54 | the source's `request` rejects exactly when the transport throws an axios error whose response is `null` |
| AxiosHttpClient.NullResponseEscapesRequest | src/infrastructure/http/AxiosHttpClient.ts:171-180 | a GET whose transport throws `{isAxiosError: true, message: "Network Error", response: null}` rejects instead of resolving to `Left` |
| AxiosHttpClient.HandleError | src/infrastructure/http/AxiosHttpClient.ts:138-169 | every thrown value maps to an `HttpError`: an axios error with a well-formed response keeps its status (named or not) and data; other axios errors and `Error`s get 500 and their message; anything else gets 500 and "An unexpected error occurred" |
| AxiosHttpClient.HandleErrorAgrees | src/infrastructure/http/AxiosHttpClient.ts:138-158 | wherever the source's classification completes, it equals the corrected one |
| AxiosHttpClient.IsAxiosError | src/infrastructure/http/AxiosHttpClient.ts:162-169 | only a non-null object counts as an axios error, and only when it has an `isAxiosError` key whose value is strictly `true` |
| AxiosHttpClient.UnmappedStatusPassesThrough | src/infrastructure/http/AxiosHttpClient.spec.ts:192-211 | an axios error whose response has status 418 and data `{error: "Im a teapot"}` becomes an `HttpError` with status 418 and that body |
| AxiosHttpClient.NetworkErrorIsInternal | src/infrastructure/http/AxiosHttpClient.spec.ts:173-190 | an axios error with no response becomes a 500 carrying "Network Error" |
| AxiosHttpClient.PlainErrorIsInternal | src/infrastructure/http/AxiosHttpClient.spec.ts:158-171 | a plain `Error("Unknown error")` becomes a 500 carrying its message |
| AxiosHttpClient.NonObjectIsUnexpected | src/infrastructure/http/AxiosHttpClient.ts:153-156 | a thrown `null` or primitive becomes a 500 with "An unexpected error occurred" |
| AxiosHttpClient.Request | src/infrastructure/http/AxiosHttpClient.ts:38-54 | a response becomes `Right` of the adapted response; every thrown value becomes `Left` of its classification |
| AxiosHttpClient.RequestAgreesOffNullResponse | src/infrastructure/http/AxiosHttpClient.ts:38-54 | whenever the source's `request` resolves, it resolves to what the corrected `request` returns |
| AxiosHttpClient.Get | src/infrastructure/http/AxiosHttpClient.ts:56-67 | `get` builds a GET request with the given url, params and headers, and no body is forwarded |
| AxiosHttpClient.Post | src/infrastructure/http/AxiosHttpClient.ts:69-80 | `post` builds a POST request without params whose body is forwarded, `undefined` when omitted |
| AxiosHttpClient.Put | src/infrastructure/http/AxiosHttpClient.ts:82-93 | `put` builds a PUT request without params whose body is forwarded |
| AxiosHttpClient.Patch | src/infrastructure/http/AxiosHttpClient.ts:95-106 | `patch` builds a PATCH request without params whose body is forwarded |
| AxiosHttpClient.Delete | src/infrastructure/http/AxiosHttpClient.ts:108-117 | `delete` builds a DELETE request without params, and no body is forwarded |
| ProductEntity.ValidateName | src/domain/entities/Product.ts:93-101 | succeeds exactly when the trimmed name has 3 to 100 characters, returning the trimmed name; otherwise the too-short or too-long message |
| ProductEntity.ValidateDescription | src/domain/entities/Product.ts:103-115 | succeeds exactly when the trimmed description has 1 to 500 characters, returning it trimmed; otherwise the matching message |
| ProductEntity.ValidatePrice | src/domain/entities/Product.ts:117-122 | succeeds exactly for a price above zero |
| ProductEntity.ValidateCategory | src/domain/entities/Product.ts:124-129 | succeeds exactly when the trimmed category has at least 2 characters, with no upper bound |
| ProductEntity.ValidateStock | src/domain/entities/Product.ts:131-136 | succeeds exactly for a non-negative stock, fractions included |
| ProductEntity.FirstViolation | src/domain/entities/Product.ts:85-91 | there is a first broken rule exactly when the product breaks the invariant |
| ProductEntity.Validate | src/domain/entities/Product.ts:85-91 | `validate` accepts exactly the products satisfying all five rules, and rejects with the first broken rule's message |
| ProductEntity.Construct | src/domain/entities/Product.ts:5-16 | the constructor yields its fields unchanged exactly when they are valid |
| ProductEntity.Create | src/domain/entities/Product.ts:139-151 | `create` succeeds exactly for valid input; the product has the given id, one `now` for both timestamps, the input fields as given, and is valid; a failure carries the message of the first rule the input breaks |
| ProductEntity.Reconstruct | src/domain/entities/Product.ts:153-164 | `reconstruct` keeps id, timestamps and all fields verbatim but still validates, failing with the first broken rule |
| ProductEntity.CreateRejectsExactlyInvalid | src/domain/entities/Product.ts:85-136 | `create` fails exactly when the trimmed name is under 3 or over 100, the trimmed description under 1 or over 500, the price at most 0, the trimmed category under 2, or the stock negative |
| ProductEntity.ToJson | src/domain/entities/Product.ts:167-178 | the `toJSON` snapshot of a valid product reconstructs to exactly that product |
| ProductEntity.ToJsonReconstructRoundTrip | src/domain/entities/Product.ts:153-178 | a snapshot that reconstructs is exactly the snapshot of the product it gives |
| ProductEntity.UpdateName | src/domain/entities/Product.ts:45-48 | succeeds exactly for a valid name, storing it trimmed and stamping `now`; the other fields are untouched |
| ProductEntity.UpdateDescription | src/domain/entities/Product.ts:50-53 | succeeds exactly for a valid description, storing it trimmed and stamping `now` |
| ProductEntity.UpdatePrice | src/domain/entities/Product.ts:55-58 | succeeds exactly for a positive price, storing it and stamping `now` |
| ProductEntity.UpdateCategory | src/domain/entities/Product.ts:60-63 | succeeds exactly for a valid category, storing it trimmed and stamping `now` |
| ProductEntity.AddStock | src/domain/entities/Product.ts:65-71 | a positive quantity raises the stock by exactly that amount; any other is refused with "Quantity must be positive" |
| ProductEntity.RemoveStock | src/domain/entities/Product.ts:73-82 | a quantity in (0, stock] lowers the stock by exactly that amount; a non-positive one is refused first, an excessive one with "Insufficient stock" |
| ProductEntity.MutationPreservesInvariant | src/domain/entities/Product.ts:45-82 | every mutator keeps a valid product valid and never changes id or createdAt; a success stamps `now`; that a failure leaves the product as it was holds by construction, since every check precedes every assignment |
| ProductEntity.ApplyAllPreservesInvariant | src/domain/entities/Product.ts:45-82 | any series of mutator calls, successful or not, keeps a product valid with the same id and createdAt |
| ProductRepository.ProductNotFound | src/domain/repositories/ProductRepository.spec.ts:46-50 | the not-found answer is an `HttpError` with status 404 and message "Product not found" |
| ProductRepository.PassesIffSatisfies | src/domain/repositories/ProductRepository.spec.ts:17-31 | the filter callback passes a product exactly when every filter that is set (not absent, "" or 0) holds: category equality, minimum and maximum price, name substring |
| ProductRepository.Filter | src/domain/repositories/ProductRepository.spec.ts:17-31 | the filtered list holds exactly the stored products that pass, and is no longer than the store |
| ProductRepository.FilterAppend | src/domain/repositories/ProductRepository.spec.ts:17-31 | filtering distributes over concatenation, so it keeps the store's order |
| ProductRepository.FilterWithoutFiltersKeepsAll | src/domain/repositories/ProductRepository.spec.ts:17-31 | with no filters, or only falsy ones, every stored product is returned |
| ProductRepository.FindAll | src/domain/repositories/ProductRepository.spec.ts:13-42 | `findAll` leaves the store alone and answers `Right` with the filtered products, their count as total, and page and limit echoed, unsliced |
| ProductRepository.FindIndex | src/domain/repositories/ProductRepository.spec.ts:62-63 | `findIndex` returns the first position holding the id, or -1 exactly when no entry holds it |
| ProductRepository.FindById | src/domain/repositories/ProductRepository.spec.ts:43-54 | `findById` answers the first product with the id when some entry has it, otherwise the 404 error |
| ProductRepository.Create | src/domain/repositories/ProductRepository.spec.ts:55-60 | `create` appends the product and answers `Right(product)` |
| ProductRepository.Update | src/domain/repositories/ProductRepository.spec.ts:61-74 | `update` replaces the first entry with the id and no other, keeping the length; with the id absent it answers 404 and the store is unchanged |
| ProductRepository.Delete | src/domain/repositories/ProductRepository.spec.ts:75-88 | `delete` splices out the first entry with the id; with the id absent it answers 404 and the store is unchanged |
| ProductRepository.CreateThenFind | src/domain/repositories/ProductRepository.spec.ts:43-60 | a product created under a new id is what `findById` then finds |
| ProductRepository.UpdateThenFind | src/domain/repositories/ProductRepository.spec.ts:43-74 | after a successful update, `findById` finds the new version |
| ProductRepository.DeleteRemovesOne | src/domain/repositories/ProductRepository.spec.ts:75-88 | a successful delete removes exactly one entry with the id and keeps every other entry; the id is then gone exactly when it was held once |
| CreateProductUseCase.Execute | src/application/useCases/products/CreateProductUseCase.ts:18-30 | `Product.create` gets exactly the five input fields; a validation failure rejects before the repository is called; otherwise the repository gets that product once, any resolution (`Left` included) gives `Right({product})`, a rejection passes through unchanged, and `Left` is never returned |
| CreateProductUseCase.ExampleInput | src/application/useCases/products/CreateProductUseCase.spec.ts:7-59 | for the tests' input the repository is called once; when it resolves, the result is `Right` holding exactly the product it was given, named "Test Product"; when it rejects, the rejection propagates |
| CreateProductViewModel.New | src/presentation/viewModels/CreateProductViewModel.ts:16-20 | the initial state is not loading, no error, no success, no product, with no listeners |
| CreateProductViewModel.GetState | src/presentation/viewModels/CreateProductViewModel.ts:50-52 | `getState` reads the current state |
| CreateProductViewModel.SetStateThenGetState | src/presentation/viewModels/CreateProductViewModel.ts:50-57 | after `setState`, `getState` answers the merged state, which is the state every listener was just called with |
| CreateProductViewModel.Merge | src/presentation/viewModels/CreateProductViewModel.ts:54-57 | the merge is shallow: fields the patch names are replaced, all others keep their value |
| CreateProductViewModel.Notify | src/presentation/viewModels/CreateProductViewModel.ts:66-68 | every listener is called once, in subscription order, with the current state |
| CreateProductViewModel.SetState | src/presentation/viewModels/CreateProductViewModel.ts:54-57 | `setState` merges the patch and then notifies every listener of the merged state |
| CreateProductViewModel.Subscribe | src/presentation/viewModels/CreateProductViewModel.ts:59-62 | `subscribe` adds the listener to the set, keeping it free of repeats: a new listener goes last and the others keep their order, a present one changes nothing |
| CreateProductViewModel.Unsubscribe | src/presentation/viewModels/CreateProductViewModel.ts:63 | the function `subscribe` returns removes that listener and no other: it splices out the listener's position and keeps the rest in order, and changes nothing when the listener is absent |
| CreateProductViewModel.SubscribeIdempotent | src/presentation/viewModels/CreateProductViewModel.ts:59-64 | subscribing the same listener twice registers it once |
| CreateProductViewModel.UnsubscribeUndoesSubscribe | src/presentation/viewModels/CreateProductViewModel.ts:59-64 | unsubscribing a listener just subscribed restores the view model exactly |
| CreateProductViewModel.Execute | src/presentation/viewModels/CreateProductViewModel.ts:24-48 | `execute` first sets loading and every listener is called with that state; `Right` ends in success with the product and calls every listener again with it; `Left` leaves loading true and calls no one again; a rejection ends with the generic error, keeps any earlier product, calls every listener again with that state and is rethrown; the outcome is returned unchanged |
| CreateProductViewModel.ExecuteValidInputSucceeds | src/presentation/viewModels/CreateProductViewModel.ts:24-48 | through the use case, a valid input with a resolving repository ends in the success state holding the product built from that input |

## Left out

- Axios I/O: `axios.create` and `instance.request` (src/infrastructure/http/AxiosHttpClient.ts:29-36,42-48) are not modelled; the transport is the parameter `send`, so the instance's base URL and default header are not part of the model.
- Clock and identifiers: `new Date()` and `crypto.randomUUID()` are the parameters `now` and `id`. Whether `updatedAt` strictly advances depends on the clock, so the model does not claim it.
- Numbers: prices, stock and quantities are reals. NaN, infinities and floating-point rounding are not modelled.
- Strings are sequences of code points, so `length` counts code points, not UTF-16 units. The `!value` guards are modelled for the empty string only; null or undefined field values are outside the model.
- CreateProductViewModel.Execute: listeners are modelled as calls that do not throw; in the source a listener is any `() => void` (src/presentation/viewModels/CreateProductViewModel.ts:59-68). A listener throwing during the first `setState({loading: true})` (line 25, outside the `try`) would make `execute` reject with that error, skip the remaining listeners and never call the use case. One throwing during the success `setState` (lines 31-36) would land in the `catch` (lines 40-47), so the state would end as the generic-error state, listeners would be notified again, and the listener's error would be rethrown.
- Promises are settled outcomes. Overlapping `execute` calls on one view model are not modelled, and neither are listeners that subscribe or unsubscribe while being notified.
- Thrown values: a non-string `message` and a non-numeric or `undefined` `response.status` are outside the model; the message is a string or absent, and the status a number or absent.
- AxiosHttpClient.RequestData: the source forwards a body when the request object has a `data` key (src/infrastructure/http/AxiosHttpClient.ts:185); the model decides by request shape. The two agree for every request the five helpers build, but not for a caller-built GET or DELETE object that carries an extra `data` key.
- The abstract `ApplicationError` base and `BaseError` base with caller-defined subclasses: only the concrete kinds the source declares are modelled.
- Object identity: the repository stores product values, so it does not model aliasing between a stored product and one mutated elsewhere.
- CreateProductViewModel.Unsubscribe: the boolean the returned function yields (the result of `Set.delete`) is not modelled.
- The `either.ts` source is not part of this model; `Either` follows the behaviour its test pins down.
- UI and framework glue (CreateProductForm.tsx, CreateProductPage.tsx, useCreateProductAdapter.ts), build configuration, `common.ts` (unused types), the `make-product.ts` fixture and the mock-only HttpClient.spec.ts carry no behaviour of the core.

## Findings

| source | as written | input that shows it | evidently intended | confidence | as-written member | corrected member |
|---|---|---|---|---|---|---|
| src/infrastructure/http/AxiosHttpClient.ts:171-180 | `hasErrorResponse` evaluates `'status' in error.response` when the response is `null`, because `typeof null` is "object". That throws a `TypeError` inside `request`'s catch, so the promise rejects instead of resolving to `Left` | a transport that throws `{isAxiosError: true, message: "Network Error", response: null}` | a `null` response is treated like a missing one: `Left(HttpError)` with status 500 and the error's message, keeping the failure mapping total | medium; not executed | AxiosHttpClient.NullResponseEscapesRequest | AxiosHttpClient.Request |
