/** The create/edit product page (src/pages/ProductForm.tsx). */
module ProductForm {
  import opened Wrappers
  import opened Types
  import opened Backend
  import opened Firestore
  import opened ProductValidation

  /** What `getProduct(productId)` settles with: the product or null, or a rejection. */
  datatype LoadResult = Loaded(found: Option<Product>) | LoadFailed(message: string)

  const NotFoundError := "Product not found."
  const LoadError := "Unable to load product."
  const SaveError := "Unable to save product."
  const ProductsRoute := "/products"

  class ProductFormPage {
    var form: ProductFormState
    var isLoading: bool
    var isSaving: bool
    var error: Option<string>
    /** The last route passed to `navigate`. */
    var navigatedTo: Option<string>
    /** The load-effect run whose `isMounted` flag is still true, if any. */
    var liveRun: Option<nat>
    /** How many load runs have started; each run is named by the count before it. */
    var runs: nat

    constructor ()
      ensures form == EmptyForm && !isLoading && !isSaving && error == None
      ensures navigatedTo == None && liveRun == None && runs == 0
    {
      form, isLoading, isSaving, error := EmptyForm, false, false, None;
      navigatedTo, liveRun, runs := None, None, 0;
    }

    /** The effect's cleanup: `isMounted = false` for the live run. */
    method Cleanup()
      modifies this
      ensures liveRun == None
      ensures form == old(form) && isLoading == old(isLoading) && isSaving == old(isSaving)
      ensures error == old(error) && navigatedTo == old(navigatedTo) && runs == old(runs)
    {
      liveRun := None;
    }

    /** The load effect for the route parameter `productId`, after the previous run's
        cleanup. Returns the run and the id of the fetch it starts, if any. */
    method RunLoadEffect(productId: Option<string>) returns (fetch: Option<(nat, string)>)
      modifies this
      ensures isSaving == old(isSaving) && navigatedTo == old(navigatedTo)
      ensures !Truthy(productId) ==>
                && fetch == None && form == EmptyForm && liveRun == None
                && isLoading == old(isLoading) && error == old(error) && runs == old(runs)
      ensures Truthy(productId) ==>
                && fetch == Some((old(runs), productId.value))
                && liveRun == Some(old(runs)) && runs == old(runs) + 1
                && isLoading && error == None && form == old(form)
    {
      Cleanup();
      if !Truthy(productId) {
        form := EmptyForm;
        return None;
      }
      liveRun := Some(runs);
      fetch := Some((runs, productId.value));
      runs := runs + 1;
      isLoading := true;
      error := None;
    }

    /** The fetch of run `run` settles with `result`. A run that was cleaned up changes nothing. */
    method CompleteLoad(run: nat, result: LoadResult)
      modifies this
      ensures isSaving == old(isSaving) && navigatedTo == old(navigatedTo)
      ensures liveRun == old(liveRun) && runs == old(runs)
      ensures old(liveRun) != Some(run) ==>
                form == old(form) && isLoading == old(isLoading) && error == old(error)
      ensures old(liveRun) == Some(run) ==> !isLoading
      ensures old(liveRun) == Some(run) && result.Loaded? && result.found.Some? ==>
                form == FormFromProduct(result.found.value) && error == old(error)
      ensures old(liveRun) == Some(run) && result == Loaded(None) ==>
                form == old(form) && error == Some(NotFoundError)
      ensures old(liveRun) == Some(run) && result.LoadFailed? ==>
                form == old(form) && error == Some(OrElse(result.message, LoadError))
    {
      if liveRun != Some(run) {
        return;
      }
      match result {
        case Loaded(found) =>
          if found.None? {
            error := Some(NotFoundError);
          } else {
            form := FormFromProduct(found.value);
          }
        case LoadFailed(message) =>
          error := Some(OrElse(message, LoadError));
      }
      isLoading := false;
    }

    /** The save step of `handleSubmit` for an accepted payload: `updateProduct` when the page
        edits `productId`, else `createProduct`, then navigation or the error. */
    method Save(store: DocumentStore, productId: Option<string>, payload: ProductInput,
                newId: string, writeSucceeds: bool, failure: string)
      returns (saved: bool)
      requires newId !in store.products
      modifies this, store
      ensures form == old(form) && isLoading == old(isLoading) && !isSaving
      ensures liveRun == old(liveRun) && runs == old(runs)
      ensures store.orders == old(store.orders) && store.users == old(store.users)
      ensures store.principals == old(store.principals)
      ensures Truthy(productId) ==> saved == (writeSucceeds && productId.value in old(store.products))
      ensures !Truthy(productId) ==> saved == writeSucceeds
      ensures saved && Truthy(productId) ==>
                && store.products == old(store.products)[productId.value := ProductDocFor(payload)]
                && store.log == old(store.log) + [ProductUpdated(productId.value)]
      ensures saved && !Truthy(productId) ==>
                && store.products == old(store.products)[newId := ProductDocFor(payload)]
                && store.log == old(store.log) + [ProductAdded(newId)]
      ensures saved ==> navigatedTo == Some(ProductsRoute) && error == old(error)
      ensures !saved ==>
                && store.products == old(store.products) && store.log == old(store.log)
                && navigatedTo == old(navigatedTo) && error == Some(OrElse(failure, SaveError))
    {
      isSaving := true;
      if Truthy(productId) {
        saved := UpdateProduct(store, productId.value, payload, writeSucceeds);
      } else {
        saved := CreateProduct(store, payload, newId, writeSucceeds);
      }
      if saved {
        navigatedTo := Some(ProductsRoute);
      } else {
        error := Some(OrElse(failure, SaveError));
      }
      isSaving := false;
    }

    /** `handleSubmit` for the route parameter `productId`. `priceValue` is `Number(form.price)`;
        the write succeeds when `writeSucceeds` (and, for an update, the product exists), else it
        fails with `failure`; `newId` is the id the store assigns to a created product.
        Returns the validation outcome and whether the product was saved. */
    method HandleSubmit(store: DocumentStore, productId: Option<string>, priceValue: Option<int>,
                        newId: string, writeSucceeds: bool, failure: string)
      returns (checked: Result<ProductInput, FormError>, saved: bool)
      requires newId !in store.products
      modifies this, store
      ensures checked == Validate(old(form), priceValue)
      ensures form == old(form) && isLoading == old(isLoading)
      ensures liveRun == old(liveRun) && runs == old(runs)
      ensures store.orders == old(store.orders) && store.users == old(store.users)
      ensures store.principals == old(store.principals)
      ensures checked.Failure? ==>
                && !saved && error == Some(Message(checked.error))
                && isSaving == old(isSaving) && navigatedTo == old(navigatedTo)
                && store.products == old(store.products) && store.log == old(store.log)
      ensures checked.Success? ==> !isSaving
      ensures checked.Success? && Truthy(productId) ==>
                saved == (writeSucceeds && productId.value in old(store.products))
      ensures checked.Success? && !Truthy(productId) ==> saved == writeSucceeds
      ensures saved && Truthy(productId) ==>
                store.products == old(store.products)[productId.value := ProductDocFor(checked.value)]
      ensures saved && !Truthy(productId) ==>
                store.products == old(store.products)[newId := ProductDocFor(checked.value)]
      ensures saved ==> navigatedTo == Some(ProductsRoute) && error == None
      ensures checked.Success? && !saved ==>
                && store.products == old(store.products) && store.log == old(store.log)
                && navigatedTo == old(navigatedTo) && error == Some(OrElse(failure, SaveError))
    {
      error := None;
      checked := Validate(form, priceValue);
      if checked.Failure? {
        error := Some(Message(checked.error));
        return checked, false;
      }
      saved := Save(store, productId, checked.value, newId, writeSucceeds, failure);
    }
  }
}
