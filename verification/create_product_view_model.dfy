/** `CreateProductViewModel`: a state record replaced by shallow merges, a
    set of listeners told about every change, and `execute`, which drives
    the state from the use case's outcome. Listeners are identified by
    number; each call of one is recorded with the state it would read. */
module CreateProductViewModel {
  import opened SharedTypes
  import opened ProductEntity
  import opened CreateProductUseCase

  datatype CreateProductState = CreateProductState(
    loading: bool,
    error: Option<string>,
    success: bool,
    product: Option<Product>)

  /** A `Partial<CreateProductState>`: `None` leaves the field alone. */
  datatype StatePatch = StatePatch(
    loading: Option<bool>,
    error: Option<Option<string>>,
    success: Option<bool>,
    product: Option<Option<Product>>)

  type Listener = nat

  /** One call of a listener, and the state `getState` returns during it. */
  datatype Notification = Notification(listener: Listener, state: CreateProductState)

  /** The listeners are kept in insertion order without repeats, as a `Set` iterates. */
  datatype ViewModel = ViewModel(
    state: CreateProductState,
    listeners: seq<Listener>,
    notifications: seq<Notification>)

  const UnexpectedErrorMessage := "An unexpected error occurred"

  predicate NoDuplicates(ls: seq<Listener>) {
    forall i, j :: 0 <= i < j < |ls| ==> ls[i] != ls[j]
  }

  /** A fresh view model: not loading, no error, no success, no product. */
  function New(): (vm: ViewModel)
    ensures vm.state == CreateProductState(false, None, false, None)
    ensures vm.listeners == [] && vm.notifications == []
  {
    ViewModel(CreateProductState(false, None, false, None), [], [])
  }

  function GetState(vm: ViewModel): (s: CreateProductState)
    ensures s == vm.state
  {
    vm.state
  }

  /** `{ ...state, ...patch }`: the patched fields replaced, the others kept. */
  function Merge(s: CreateProductState, patch: StatePatch): (r: CreateProductState)
    ensures r.loading == patch.loading.GetOr(s.loading)
    ensures r.error == patch.error.GetOr(s.error)
    ensures r.success == patch.success.GetOr(s.success)
    ensures r.product == patch.product.GetOr(s.product)
  {
    CreateProductState(
      if patch.loading.Some? then patch.loading.value else s.loading,
      if patch.error.Some? then patch.error.value else s.error,
      if patch.success.Some? then patch.success.value else s.success,
      if patch.product.Some? then patch.product.value else s.product)
  }

  /** `notify`: every listener, in order, called once. */
  function Notify(ls: seq<Listener>, s: CreateProductState): (calls: seq<Notification>)
    ensures |calls| == |ls|
    ensures forall i :: 0 <= i < |ls| ==> calls[i] == Notification(ls[i], s)
  {
    seq(|ls|, i requires 0 <= i < |ls| => Notification(ls[i], s))
  }

  /** `setState`: merge, then notify every listener of the merged state. */
  function SetState(vm: ViewModel, patch: StatePatch): (r: ViewModel)
    ensures r.state == Merge(vm.state, patch)
    ensures r.listeners == vm.listeners
    ensures r.notifications == vm.notifications + Notify(vm.listeners, r.state)
  {
    var s := Merge(vm.state, patch);
    vm.(state := s, notifications := vm.notifications + Notify(vm.listeners, s))
  }

  /** `subscribe`: adds the listener unless it is already there. */
  function Subscribe(vm: ViewModel, l: Listener): (r: ViewModel)
    requires NoDuplicates(vm.listeners)
    ensures NoDuplicates(r.listeners)
    ensures forall x :: x in r.listeners <==> x in vm.listeners || x == l
    // A new listener goes last; the others keep their order.
    ensures l !in vm.listeners ==> r.listeners == vm.listeners + [l]
    ensures l in vm.listeners ==> r.listeners == vm.listeners
    ensures r.state == vm.state && r.notifications == vm.notifications
  {
    if l in vm.listeners then vm else vm.(listeners := vm.listeners + [l])
  }

  /** `ls` without `l`, the others in their order. */
  function Without(ls: seq<Listener>, l: Listener): (r: seq<Listener>)
    ensures forall x :: x in r <==> x in ls && x != l
    decreases |ls|
  {
    if |ls| == 0 then []
    else if ls[0] == l then Without(ls[1..], l)
    else [ls[0]] + Without(ls[1..], l)
  }

  /** Removing a listener from a list without repeats leaves one without repeats. */
  lemma {:induction false} WithoutNoDuplicates(ls: seq<Listener>, l: Listener)
    requires NoDuplicates(ls)
    ensures NoDuplicates(Without(ls, l))
    decreases |ls|
  {
    if |ls| > 0 {
      assert NoDuplicates(ls[1..]) by {
        forall i, j | 0 <= i < j < |ls[1..]|
          ensures ls[1..][i] != ls[1..][j]
        {
          assert ls[1..][i] == ls[i + 1] && ls[1..][j] == ls[j + 1];
        }
      }
      WithoutNoDuplicates(ls[1..], l);
      if ls[0] != l {
        assert ls[0] !in ls[1..] by {
          forall k | 0 <= k < |ls[1..]|
            ensures ls[1..][k] != ls[0]
          {
            assert ls[1..][k] == ls[k + 1];
          }
        }
        ConsNoDuplicates(ls[0], Without(ls[1..], l));
      }
    }
  }

  /** In a list without repeats, removing `l` found at `i` splices out exactly
      position `i`. */
  lemma {:induction false} WithoutRemovesAt(ls: seq<Listener>, l: Listener, i: nat)
    requires NoDuplicates(ls) && i < |ls| && ls[i] == l
    ensures Without(ls, l) == ls[..i] + ls[i + 1..]
    decreases i
  {
    assert NoDuplicates(ls[1..]) by {
      forall a, b | 0 <= a < b < |ls[1..]|
        ensures ls[1..][a] != ls[1..][b]
      {
        assert ls[1..][a] == ls[a + 1] && ls[1..][b] == ls[b + 1];
      }
    }
    if i == 0 {
      assert l !in ls[1..] by {
        forall k | 0 <= k < |ls[1..]|
          ensures ls[1..][k] != l
        {
          assert ls[1..][k] == ls[k + 1];
        }
      }
      WithoutAbsent(ls[1..], l);
    } else {
      assert ls[0] != l;
      WithoutRemovesAt(ls[1..], l, i - 1);
      assert ls[1..][..i - 1] == ls[1..i];
      assert ls[1..][i..] == ls[i + 1..];
      assert ls[..i] == [ls[0]] + ls[1..i];
    }
  }

  lemma ConsNoDuplicates(x: Listener, rest: seq<Listener>)
    requires x !in rest && NoDuplicates(rest)
    ensures NoDuplicates([x] + rest)
  {
    var r := [x] + rest;
    forall i, j | 0 <= i < j < |r|
      ensures r[i] != r[j]
    {
      assert r[j] == rest[j - 1];
      if i > 0 {
        assert r[i] == rest[i - 1];
      }
    }
  }

  /** The function `subscribe` returns: removes that listener and no other. */
  function Unsubscribe(vm: ViewModel, l: Listener): (r: ViewModel)
    requires NoDuplicates(vm.listeners)
    ensures NoDuplicates(r.listeners)
    ensures forall x :: x in r.listeners <==> x in vm.listeners && x != l
    // The others keep their order.
    ensures forall i :: 0 <= i < |vm.listeners| && vm.listeners[i] == l ==>
      r.listeners == vm.listeners[..i] + vm.listeners[i + 1..]
    ensures l !in vm.listeners ==> r.listeners == vm.listeners
    ensures r.state == vm.state && r.notifications == vm.notifications
  {
    WithoutNoDuplicates(vm.listeners, l);
    WithoutRemovesEach(vm.listeners, l);
    WithoutAbsent(vm.listeners, l);
    vm.(listeners := Without(vm.listeners, l))
  }

  /** `WithoutRemovesAt` at every position holding `l`. */
  lemma WithoutRemovesEach(ls: seq<Listener>, l: Listener)
    requires NoDuplicates(ls)
    ensures forall i :: 0 <= i < |ls| && ls[i] == l ==> Without(ls, l) == ls[..i] + ls[i + 1..]
  {
    forall i | 0 <= i < |ls| && ls[i] == l
      ensures Without(ls, l) == ls[..i] + ls[i + 1..]
    {
      WithoutRemovesAt(ls, l, i);
    }
  }

  lemma {:induction false} WithoutAbsent(ls: seq<Listener>, l: Listener)
    ensures l !in ls ==> Without(ls, l) == ls
    decreases |ls|
  {
    if |ls| > 0 && l !in ls {
      WithoutAbsent(ls[1..], l);
      assert ls == [ls[0]] + ls[1..];
    }
  }

  lemma {:induction false} WithoutAppend(a: seq<Listener>, b: seq<Listener>, l: Listener)
    ensures Without(a + b, l) == Without(a, l) + Without(b, l)
    decreases |a|
  {
    if |a| > 0 {
      assert (a + b)[1..] == a[1..] + b;
      WithoutAppend(a[1..], b, l);
    } else {
      assert a + b == b;
    }
  }

  /** Subscribing twice registers once. */
  lemma SubscribeIdempotent(vm: ViewModel, l: Listener)
    requires NoDuplicates(vm.listeners)
    ensures Subscribe(Subscribe(vm, l), l) == Subscribe(vm, l)
  {
  }

  /** Unsubscribing a listener just subscribed restores the listeners exactly. */
  lemma {:induction false} UnsubscribeUndoesSubscribe(vm: ViewModel, l: Listener)
    requires NoDuplicates(vm.listeners) && l !in vm.listeners
    ensures Unsubscribe(Subscribe(vm, l), l) == vm
  {
    WithoutAppend(vm.listeners, [l], l);
    WithoutAbsent(vm.listeners, l);
    assert Without([l], l) == [] by {
      assert [l][1..] == [];
    }
  }

  /** After `setState`, `getState` reads the merged state, and it is the
      state every listener was just called with. */
  lemma SetStateThenGetState(vm: ViewModel, patch: StatePatch)
    ensures var r := SetState(vm, patch);
      && GetState(r) == Merge(GetState(vm), patch)
      && forall i :: |vm.notifications| <= i < |r.notifications| ==> r.notifications[i].state == GetState(r)
  {
  }

  /** The three patches `execute` applies. */
  const StartLoading := StatePatch(Some(true), None, None, None)

  function Succeeded(p: Product): StatePatch {
    StatePatch(Some(false), Some(None), Some(true), Some(Some(p)))
  }

  const Failed := StatePatch(Some(false), Some(Some(UnexpectedErrorMessage)), Some(false), None)

  /** `execute`, given how the use case's promise settles: it returns that
      outcome unchanged (rethrowing a rejection) and leaves the state as
      described below. */
  function Execute<L, E>(vm: ViewModel, outcome: Settled<Either<L, CreatedProduct>, E>)
    : (r: (ViewModel, Settled<Either<L, CreatedProduct>, E>))
    ensures r.1 == outcome
    ensures r.0.listeners == vm.listeners
    ensures |r.0.notifications| >= |vm.notifications| + |vm.listeners|
    // The first change, seen by every listener, is loading = true and nothing else.
    ensures var loading := Merge(vm.state, StartLoading);
      && loading == vm.state.(loading := true)
      && r.0.notifications[..|vm.notifications| + |vm.listeners|] == vm.notifications + Notify(vm.listeners, loading)
    ensures outcome.Fulfilled? && outcome.value.Right? ==>
      && r.0.state == CreateProductState(false, None, true, Some(outcome.value.rightValue.product))
      && r.0.notifications
         == vm.notifications + Notify(vm.listeners, vm.state.(loading := true)) + Notify(vm.listeners, r.0.state)
    // A Left adds no second change, so loading stays true.
    ensures outcome.Fulfilled? && outcome.value.Left? ==>
      && r.0.state == vm.state.(loading := true)
      && r.0.notifications == vm.notifications + Notify(vm.listeners, vm.state.(loading := true))
    // A rejection reports the generic message and keeps any earlier product.
    ensures outcome.Rejected? ==>
      && r.0.state == CreateProductState(false, Some("An unexpected error occurred"), false, vm.state.product)
      && r.0.notifications
         == vm.notifications + Notify(vm.listeners, vm.state.(loading := true)) + Notify(vm.listeners, r.0.state)
  {
    var started := SetState(vm, StartLoading);
    match outcome
    case Fulfilled(result) =>
      if result.Right? then (SetState(started, Succeeded(result.rightValue.product)), outcome)
      else (started, outcome)
    case Rejected(_) => (SetState(started, Failed), outcome)
  }

  /** End to end: with a repository that resolves, a valid input leaves the
      view model in the success state holding the product built from it. */
  lemma {:induction false} ExecuteValidInputSucceeds<E>(
    vm: ViewModel, input: CreateProductInput, id: string, now: Timestamp,
    create: Product -> Settled<Either<HttpErrors.HttpError, Product>, E>)
    requires ProductEntity.Create(PropsOf(input), id, now).Right?
    requires create(ProductEntity.Create(PropsOf(input), id, now).rightValue).Fulfilled?
    ensures var s := Execute(vm, CreateProductUseCase.Execute(input, id, now, create).settled).0.state;
      && s.success && !s.loading && s.error.None?
      && s.product.Some? && s.product.value.name == input.name && s.product.value.id == id
  {
  }
}
