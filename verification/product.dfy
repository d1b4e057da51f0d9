/** The `Product` entity: its validation rules, the `create` and
    `reconstruct` factories, the field updates and stock movements, and its
    serialised form. Throwing a `ValidationError` is a `Left` result; the
    clock (`now`) and the identifier generator (`id`) are parameters. */
module ProductEntity {
  import opened SharedTypes
  import opened Text
  import ApplicationErrors

  /** A point in time, as the milliseconds a `Date` holds. */
  type Timestamp = int

  type ValidationError = e: ApplicationErrors.ApplicationError | e.kind == ApplicationErrors.ValidationError
    witness ApplicationErrors.ApplicationError(ApplicationErrors.ValidationError, "")

  function Invalid(message: string): (e: ValidationError)
    ensures e.message == message
  {
    ApplicationErrors.NewValidationError(message)
  }

  datatype Product = Product(
    id: string,
    name: string,
    description: string,
    price: real,
    category: string,
    stock: real,
    createdAt: Timestamp,
    updatedAt: Timestamp)

  datatype CreateProductProps = CreateProductProps(
    name: string,
    description: string,
    price: real,
    category: string,
    stock: real)

  /** The input of `reconstruct`, which is also the shape `toJSON` returns. */
  datatype ReconstructProductProps = ReconstructProductProps(
    id: string,
    name: string,
    description: string,
    price: real,
    category: string,
    stock: real,
    createdAt: Timestamp,
    updatedAt: Timestamp)

  const NameTooShort := "Name must be at least 3 characters long"
  const NameTooLong := "Name must be at most 100 characters long"
  const DescriptionTooShort := "Description must be at least 1 characters long"
  const DescriptionTooLong := "Description must be at most 500 characters long"
  const PriceNotPositive := "Price must be greater than zero"
  const CategoryTooShort := "Category must be at least 2 characters long"
  const StockNegative := "Stock cannot be negative"
  const QuantityNotPositive := "Quantity must be positive"
  const InsufficientStock := "Insufficient stock"

  // ----- the rules, stated on their own -----

  predicate ValidName(name: string) { 3 <= |Trim(name)| <= 100 }
  predicate ValidDescription(description: string) { 1 <= |Trim(description)| <= 500 }
  predicate ValidPrice(price: real) { price > 0.0 }
  predicate ValidCategory(category: string) { |Trim(category)| >= 2 }
  predicate ValidStock(stock: real) { stock >= 0.0 }

  /** The entity invariant: every field satisfies its rule. */
  predicate Valid(p: Product) {
    && ValidName(p.name)
    && ValidDescription(p.description)
    && ValidPrice(p.price)
    && ValidCategory(p.category)
    && ValidStock(p.stock)
  }

  // ----- the field validators -----

  /** `validateName`: the trimmed name, or the rule it breaks. */
  function ValidateName(name: string): (r: Either<ValidationError, string>)
    ensures r.Right? <==> ValidName(name)
    ensures r.Right? ==> r.rightValue == Trim(name)
    ensures |Trim(name)| < 3 ==> r.leftValue.message == NameTooShort
    ensures |Trim(name)| > 100 ==> r.leftValue.message == NameTooLong
  {
    if |name| == 0 || |Trim(name)| < 3 then Left(Invalid(NameTooShort))
    else if |Trim(name)| > 100 then Left(Invalid(NameTooLong))
    else Right(Trim(name))
  }

  /** `validateDescription`: the trimmed description, or the rule it breaks. */
  function ValidateDescription(description: string): (r: Either<ValidationError, string>)
    ensures r.Right? <==> ValidDescription(description)
    ensures r.Right? ==> r.rightValue == Trim(description)
    ensures |Trim(description)| < 1 ==> r.leftValue.message == DescriptionTooShort
    ensures |Trim(description)| > 500 ==> r.leftValue.message == DescriptionTooLong
  {
    if |description| == 0 || |Trim(description)| < 1 then Left(Invalid(DescriptionTooShort))
    else if |Trim(description)| > 500 then Left(Invalid(DescriptionTooLong))
    else Right(Trim(description))
  }

  function ValidatePrice(price: real): (r: Either<ValidationError, real>)
    ensures r.Right? <==> ValidPrice(price)
    ensures r.Right? ==> r.rightValue == price
    ensures r.Left? ==> r.leftValue.message == PriceNotPositive
  {
    if price <= 0.0 then Left(Invalid(PriceNotPositive)) else Right(price)
  }

  /** `validateCategory`: the trimmed category, or the rule it breaks; there
      is no upper bound on its length. */
  function ValidateCategory(category: string): (r: Either<ValidationError, string>)
    ensures r.Right? <==> ValidCategory(category)
    ensures r.Right? ==> r.rightValue == Trim(category)
    ensures r.Left? ==> r.leftValue.message == CategoryTooShort
  {
    if |category| == 0 || |Trim(category)| < 2 then Left(Invalid(CategoryTooShort))
    else Right(Trim(category))
  }

  /** `validateStock`: only negativity is rejected; fractions pass. */
  function ValidateStock(stock: real): (r: Either<ValidationError, real>)
    ensures r.Right? <==> ValidStock(stock)
    ensures r.Right? ==> r.rightValue == stock
    ensures r.Left? ==> r.leftValue.message == StockNegative
  {
    if stock < 0.0 then Left(Invalid(StockNegative)) else Right(stock)
  }

  /** The message of the first rule `p` breaks, in the order `validate` checks them. */
  function FirstViolation(p: Product): (m: Option<string>)
    ensures m.None? <==> Valid(p)
  {
    if !ValidName(p.name) then
      Some(if |Trim(p.name)| < 3 then NameTooShort else NameTooLong)
    else if !ValidDescription(p.description) then
      Some(if |Trim(p.description)| < 1 then DescriptionTooShort else DescriptionTooLong)
    else if !ValidPrice(p.price) then Some(PriceNotPositive)
    else if !ValidCategory(p.category) then Some(CategoryTooShort)
    else if !ValidStock(p.stock) then Some(StockNegative)
    else None
  }

  /** `validate`: runs the five validators in order and discards the values
      they return, so the fields themselves are left untrimmed. It accepts
      exactly the products satisfying the invariant, and when it rejects, its
      message is the first broken rule's. */
  function Validate(p: Product): (r: Either<ValidationError, ()>)
    ensures r.Right? <==> Valid(p)
    ensures r.Left? ==> Some(r.leftValue.message) == FirstViolation(p)
  {
    var name := ValidateName(p.name);
    if name.Left? then Left(name.leftValue) else
    var description := ValidateDescription(p.description);
    if description.Left? then Left(description.leftValue) else
    var price := ValidatePrice(p.price);
    if price.Left? then Left(price.leftValue) else
    var category := ValidateCategory(p.category);
    if category.Left? then Left(category.leftValue) else
    var stock := ValidateStock(p.stock);
    if stock.Left? then Left(stock.leftValue) else
    Right(())
  }

  /** The private constructor: validates, then keeps the fields as given. */
  function Construct(p: Product): (r: Either<ValidationError, Product>)
    ensures r.Right? <==> Valid(p)
    ensures r.Right? ==> r.rightValue == p
    ensures r.Left? ==> Some(r.leftValue.message) == FirstViolation(p)
  {
    match Validate(p)
    case Left(e) => Left(e)
    case Right(_) => Right(p)
  }

  // ----- the factories and the serialised form -----

  /** `Product.create`: a fresh `id`, both timestamps set to one `now`, and
      the input strings stored as given (not trimmed). */
  function Create(props: CreateProductProps, id: string, now: Timestamp): (r: Either<ValidationError, Product>)
    ensures r.Right? <==> Valid(Product(id, props.name, props.description, props.price, props.category, props.stock, now, now))
    ensures r.Right? ==> var p := r.rightValue;
      && p.id == id && p.createdAt == now && p.updatedAt == now
      && p.name == props.name && p.description == props.description && p.price == props.price
      && p.category == props.category && p.stock == props.stock
      && Valid(p)
    ensures r.Left? ==>
      Some(r.leftValue.message) == FirstViolation(Product(id, props.name, props.description, props.price, props.category, props.stock, now, now))
  {
    Construct(Product(id, props.name, props.description, props.price, props.category, props.stock, now, now))
  }

  /** `Product.reconstruct`: every field, identifier and timestamps included,
      kept verbatim, but still validated. */
  function Reconstruct(props: ReconstructProductProps): (r: Either<ValidationError, Product>)
    ensures r.Right? ==> var p := r.rightValue;
      && p.id == props.id && p.createdAt == props.createdAt && p.updatedAt == props.updatedAt
      && p.name == props.name && p.description == props.description && p.price == props.price
      && p.category == props.category && p.stock == props.stock
      && Valid(p)
    ensures r.Left? ==>
      Some(r.leftValue.message) == FirstViolation(Product(props.id, props.name, props.description, props.price, props.category, props.stock, props.createdAt, props.updatedAt))
  {
    Construct(Product(props.id, props.name, props.description, props.price, props.category, props.stock, props.createdAt, props.updatedAt))
  }

  /** `toJSON`: a plain snapshot of every field, from which `reconstruct`
      rebuilds a valid product exactly. */
  function ToJson(p: Product): (r: ReconstructProductProps)
    ensures Valid(p) ==> Reconstruct(r) == Right(p)
  {
    ReconstructProductProps(p.id, p.name, p.description, p.price, p.category, p.stock, p.createdAt, p.updatedAt)
  }

  /** A snapshot that rehydrates is exactly the snapshot of what it rehydrates to. */
  lemma ToJsonReconstructRoundTrip(props: ReconstructProductProps)
    requires Reconstruct(props).Right?
    ensures ToJson(Reconstruct(props).rightValue) == props
  {
  }

  /** Every created product satisfies the invariant, and `create` rejects
      exactly the inputs that break one of the five rules. */
  lemma CreateRejectsExactlyInvalid(props: CreateProductProps, id: string, now: Timestamp)
    ensures Create(props, id, now).Left? <==>
      || |Trim(props.name)| < 3 || |Trim(props.name)| > 100
      || |Trim(props.description)| < 1 || |Trim(props.description)| > 500
      || props.price <= 0.0
      || |Trim(props.category)| < 2
      || props.stock < 0.0
  {
    var p := Product(id, props.name, props.description, props.price, props.category, props.stock, now, now);
    assert Create(props, id, now).Right? <==> Valid(p);
  }

  // ----- the mutators -----

  /** `updateName`: only the new name is validated; the trimmed value is stored. */
  function UpdateName(p: Product, name: string, now: Timestamp): (r: Either<ValidationError, Product>)
    ensures r.Right? <==> ValidName(name)
    ensures r.Right? ==> r.rightValue == p.(name := Trim(name), updatedAt := now)
    ensures r.Left? ==> r.leftValue == ValidateName(name).leftValue
  {
    match ValidateName(name)
    case Left(e) => Left(e)
    case Right(trimmed) => Right(p.(name := trimmed, updatedAt := now))
  }

  function UpdateDescription(p: Product, description: string, now: Timestamp): (r: Either<ValidationError, Product>)
    ensures r.Right? <==> ValidDescription(description)
    ensures r.Right? ==> r.rightValue == p.(description := Trim(description), updatedAt := now)
    ensures r.Left? ==> r.leftValue == ValidateDescription(description).leftValue
  {
    match ValidateDescription(description)
    case Left(e) => Left(e)
    case Right(trimmed) => Right(p.(description := trimmed, updatedAt := now))
  }

  function UpdatePrice(p: Product, price: real, now: Timestamp): (r: Either<ValidationError, Product>)
    ensures r.Right? <==> ValidPrice(price)
    ensures r.Right? ==> r.rightValue == p.(price := price, updatedAt := now)
    ensures r.Left? ==> r.leftValue.message == PriceNotPositive
  {
    match ValidatePrice(price)
    case Left(e) => Left(e)
    case Right(v) => Right(p.(price := v, updatedAt := now))
  }

  function UpdateCategory(p: Product, category: string, now: Timestamp): (r: Either<ValidationError, Product>)
    ensures r.Right? <==> ValidCategory(category)
    ensures r.Right? ==> r.rightValue == p.(category := Trim(category), updatedAt := now)
    ensures r.Left? ==> r.leftValue.message == CategoryTooShort
  {
    match ValidateCategory(category)
    case Left(e) => Left(e)
    case Right(trimmed) => Right(p.(category := trimmed, updatedAt := now))
  }

  /** `addStock`: a positive quantity is added; anything else is refused. */
  function AddStock(p: Product, quantity: real, now: Timestamp): (r: Either<ValidationError, Product>)
    ensures r.Right? <==> quantity > 0.0
    ensures r.Right? ==> r.rightValue == p.(stock := p.stock + quantity, updatedAt := now)
    ensures r.Right? ==> r.rightValue.stock > p.stock
    ensures r.Left? ==> r.leftValue.message == QuantityNotPositive
  {
    if quantity <= 0.0 then Left(Invalid(QuantityNotPositive))
    else Right(p.(stock := p.stock + quantity, updatedAt := now))
  }

  /** `removeStock`: a positive quantity no larger than the stock is removed;
      a non-positive one is refused first, an excessive one second. */
  function RemoveStock(p: Product, quantity: real, now: Timestamp): (r: Either<ValidationError, Product>)
    ensures r.Right? <==> 0.0 < quantity <= p.stock
    ensures r.Right? ==> r.rightValue == p.(stock := p.stock - quantity, updatedAt := now)
    ensures r.Right? ==> 0.0 <= r.rightValue.stock < p.stock
    ensures quantity <= 0.0 ==> r.leftValue.message == QuantityNotPositive
    ensures 0.0 < quantity && quantity > p.stock ==> r.leftValue.message == InsufficientStock
  {
    if quantity <= 0.0 then Left(Invalid(QuantityNotPositive))
    else if quantity > p.stock then Left(Invalid(InsufficientStock))
    else Right(p.(stock := p.stock - quantity, updatedAt := now))
  }

  /** One call of a mutating method. */
  datatype Mutation =
    | SetName(name: string)
    | SetDescription(description: string)
    | SetPrice(price: real)
    | SetCategory(category: string)
    | Add(quantity: real)
    | Remove(quantity: real)

  function Apply(p: Product, m: Mutation, now: Timestamp): Either<ValidationError, Product> {
    match m
    case SetName(name) => UpdateName(p, name, now)
    case SetDescription(description) => UpdateDescription(p, description, now)
    case SetPrice(price) => UpdatePrice(p, price, now)
    case SetCategory(category) => UpdateCategory(p, category, now)
    case Add(quantity) => AddStock(p, quantity, now)
    case Remove(quantity) => RemoveStock(p, quantity, now)
  }

  /** The object after a call: the new state, or the old one when the method
      threw (every check precedes every assignment). */
  function After(p: Product, r: Either<ValidationError, Product>): Product {
    if r.Right? then r.rightValue else p
  }

  /** The facts every mutator keeps: validity, identity and creation time. */
  predicate Keeps(before: Product, after: Product) {
    Valid(after) && after.id == before.id && after.createdAt == before.createdAt
  }

  lemma UpdateNameKeeps(p: Product, name: string, now: Timestamp)
    requires Valid(p)
    ensures Keeps(p, After(p, UpdateName(p, name, now)))
  {
    if ValidName(name) {
      TrimIdempotent(name);
      assert ValidName(Trim(name));
    }
  }

  lemma UpdateDescriptionKeeps(p: Product, description: string, now: Timestamp)
    requires Valid(p)
    ensures Keeps(p, After(p, UpdateDescription(p, description, now)))
  {
    if ValidDescription(description) {
      TrimIdempotent(description);
      assert ValidDescription(Trim(description));
    }
  }

  lemma UpdateCategoryKeeps(p: Product, category: string, now: Timestamp)
    requires Valid(p)
    ensures Keeps(p, After(p, UpdateCategory(p, category, now)))
  {
    if ValidCategory(category) {
      TrimIdempotent(category);
      assert ValidCategory(Trim(category));
    }
  }

  /** Every mutator keeps the invariant (a stored trimmed value trims to
      itself), never touches `id` or `createdAt`, and stamps `updatedAt`
      with `now` exactly when it succeeds. That a failure leaves the product
      as it was holds by construction of `After`: in the source every check
      runs before any assignment. */
  lemma {:induction false} MutationPreservesInvariant(p: Product, m: Mutation, now: Timestamp)
    requires Valid(p)
    ensures Keeps(p, After(p, Apply(p, m, now)))
    ensures Apply(p, m, now).Right? ==> After(p, Apply(p, m, now)).updatedAt == now
    ensures Apply(p, m, now).Left? ==> After(p, Apply(p, m, now)) == p
  {
    match m
    case SetName(name) => UpdateNameKeeps(p, name, now);
    case SetDescription(description) => UpdateDescriptionKeeps(p, description, now);
    case SetCategory(category) => UpdateCategoryKeeps(p, category, now);
    case SetPrice(_) =>
    case Add(_) =>
    case Remove(_) =>
  }

  /** A product's state after a series of calls, the i-th at time `clock[i]`. */
  function ApplyAll(p: Product, ms: seq<Mutation>, clock: seq<Timestamp>): Product
    requires |clock| == |ms|
    decreases |ms|
  {
    if |ms| == 0 then p
    else ApplyAll(After(p, Apply(p, ms[0], clock[0])), ms[1..], clock[1..])
  }

  /** Whatever sequence of calls a valid product goes through, successful or
      not, it stays valid with the same identity and creation time. */
  lemma {:induction false} ApplyAllPreservesInvariant(p: Product, ms: seq<Mutation>, clock: seq<Timestamp>)
    requires Valid(p) && |clock| == |ms|
    ensures Valid(ApplyAll(p, ms, clock))
    ensures ApplyAll(p, ms, clock).id == p.id && ApplyAll(p, ms, clock).createdAt == p.createdAt
    decreases |ms|
  {
    if |ms| > 0 {
      var q := After(p, Apply(p, ms[0], clock[0]));
      MutationPreservesInvariant(p, ms[0], clock[0]);
      assert Keeps(p, q);
      ApplyAllPreservesInvariant(q, ms[1..], clock[1..]);
      assert ApplyAll(p, ms, clock) == ApplyAll(q, ms[1..], clock[1..]);
    }
  }
}
