/** `CreateProductUseCase.execute`: build the product, hand it to the
    repository, and answer `Right({product})`. The repository's `create` is a
    parameter from product to how its promise settles, and the run records
    which products were passed to it. */
module CreateProductUseCase {
  import opened SharedTypes
  import opened Text
  import opened HttpErrors
  import opened ProductEntity

  datatype CreateProductInput = CreateProductInput(
    name: string,
    description: string,
    price: real,
    category: string,
    stock: real)

  /** The `{ product }` success payload. */
  datatype CreatedProduct = CreatedProduct(product: Product)

  /** `Either<null, { product }>`. */
  type CreateProductOutput = Either<Null, CreatedProduct>

  /** Why `execute`'s promise rejects: the entity refused the input, or the
      repository's promise rejected with `reason`. */
  datatype Rejection<+E> = InvalidProduct(error: ValidationError) | RepositoryRejected(reason: E)

  /** The products passed to the repository, and how `execute` settled. */
  datatype Run<+E> = Run(calls: seq<Product>, settled: Settled<CreateProductOutput, Rejection<E>>)

  function PropsOf(input: CreateProductInput): CreateProductProps {
    CreateProductProps(input.name, input.description, input.price, input.category, input.stock)
  }

  function Execute<E>(
    input: CreateProductInput, id: string, now: Timestamp,
    create: Product -> Settled<Either<HttpError, Product>, E>)
    : (run: Run<E>)
    // A validation failure rejects before the repository is reached.
    ensures ProductEntity.Create(PropsOf(input), id, now).Left? ==>
      run == Run([], Rejected(InvalidProduct(ProductEntity.Create(PropsOf(input), id, now).leftValue)))
    // Otherwise the repository sees exactly the product built from the five fields.
    ensures ProductEntity.Create(PropsOf(input), id, now).Right? ==>
      var p := ProductEntity.Create(PropsOf(input), id, now).rightValue;
      && run.calls == [p]
      && p.name == input.name && p.description == input.description && p.price == input.price
      && p.category == input.category && p.stock == input.stock
      && p.id == id && p.createdAt == now && p.updatedAt == now
      // Whatever the repository resolves to, Left included, the answer is Right({product}).
      && (create(p).Fulfilled? ==> run.settled == Fulfilled(Right(CreatedProduct(p))))
      // A repository rejection passes through unchanged.
      && (create(p).Rejected? ==> run.settled == Rejected(RepositoryRejected(create(p).reason)))
    // The failure side of the answer is never used.
    ensures run.settled.Fulfilled? ==> run.settled.value.Right?
  {
    match ProductEntity.Create(PropsOf(input), id, now)
    case Left(e) => Run([], Rejected(InvalidProduct(e)))
    case Right(product) =>
      match create(product)
      case Fulfilled(_) => Run([product], Fulfilled(Right(CreatedProduct(product))))
      case Rejected(reason) => Run([product], Rejected(RepositoryRejected(reason)))
  }

  /** The use case's own scenario: this input with a repository that resolves
      yields `Right({product})` holding the very product handed to the
      repository, named "Test Product"; with one that rejects, the same
      rejection comes back. */
  lemma {:induction false} ExampleInput<E>(
    id: string, now: Timestamp, create: Product -> Settled<Either<HttpError, Product>, E>)
    ensures
      var input := CreateProductInput("Test Product", "Test Description", 100.0, "Test Category", 10.0);
      var run := Execute(input, id, now, create);
      && |run.calls| == 1
      && (create(run.calls[0]).Fulfilled? ==>
            run.settled.Fulfilled? && run.settled.value.Right?
            && run.settled.value.rightValue.product == run.calls[0]
            && run.settled.value.rightValue.product.name == "Test Product")
      && (create(run.calls[0]).Rejected? ==>
            run.settled == Rejected(RepositoryRejected(create(run.calls[0]).reason)))
  {
    var input := CreateProductInput("Test Product", "Test Description", 100.0, "Test Category", 10.0);
    assert TrimStart(input.name) == input.name && TrimEnd(input.name) == input.name;
    assert TrimStart(input.description) == input.description && TrimEnd(input.description) == input.description;
    assert TrimStart(input.category) == input.category && TrimEnd(input.category) == input.category;
  }
}
