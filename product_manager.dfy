/** The product management panel of the home page (src/commponents/ProductManager.tsx).
    The callbacks `onCreate`, `onUpdate` and `onDelete` are not run here: a handler returns
    the request it issues, and the callback's outcome is an input. */
module ProductManager {
  import opened Wrappers
  import opened Types
  import opened ProductValidation

  const UpdatedFeedback := "Product updated."
  const CreatedFeedback := "Product created."
  const DeletedFeedback := "Product deleted."
  const SaveFailed := "Unable to save product."
  const DeleteFailed := "Unable to delete product."

  class ProductManagerPanel {
    var form: ProductFormState
    var editingId: Option<string>
    var isSaving: bool
    var feedback: Option<string>
    var error: Option<string>

    constructor ()
      ensures form == EmptyForm && editingId == None && !isSaving
      ensures feedback == None && error == None
    {
      form, editingId, isSaving, feedback, error := EmptyForm, None, false, None, None;
    }

    /** `isEditing = Boolean(editingId)` */
    predicate IsEditing()
      reads this
    {
      Truthy(editingId)
    }

    /** `resetForm` */
    method ResetForm()
      modifies this
      ensures form == EmptyForm && editingId == None
      ensures isSaving == old(isSaving) && feedback == old(feedback) && error == old(error)
    {
      form := EmptyForm;
      editingId := None;
    }

    /** `handleEdit(product)`: the form takes the product's fields and the panel edits it. */
    method HandleEdit(p: Product)
      modifies this
      ensures editingId == Some(p.id) && form == FormFromProduct(p)
      ensures feedback == None && error == None && isSaving == old(isSaving)
    {
      editingId := Some(p.id);
      form := FormFromProduct(p);
      feedback := None;
      error := None;
    }

    /** `handleDelete(id)`. `confirmed` is the answer to the confirmation dialog; the deletion
        succeeds exactly when `deleteSucceeds`, else fails with `failure`. Returns whether
        `onDelete(id)` was called. */
    method HandleDelete(id: string, confirmed: bool, deleteSucceeds: bool, failure: string)
      returns (called: bool)
      modifies this
      ensures called == confirmed
      ensures !confirmed ==>
                && form == old(form) && editingId == old(editingId) && isSaving == old(isSaving)
                && feedback == old(feedback) && error == old(error)
      ensures confirmed ==> !isSaving
      ensures confirmed && deleteSucceeds ==>
                && feedback == Some(DeletedFeedback) && error == None
                && (old(editingId) == Some(id) ==> form == EmptyForm && editingId == None)
                && (old(editingId) != Some(id) ==> form == old(form) && editingId == old(editingId))
      ensures confirmed && !deleteSucceeds ==>
                && error == Some(OrElse(failure, DeleteFailed))
                && form == old(form) && editingId == old(editingId) && feedback == old(feedback)
    {
      if !confirmed {
        return false;
      }
      called := true;
      isSaving := true;
      error := None;
      if deleteSucceeds {
        if editingId == Some(id) {
          ResetForm();
        }
        feedback := Some(DeletedFeedback);
      } else {
        error := Some(OrElse(failure, DeleteFailed));
      }
      isSaving := false;
    }

    /** The save step of `handleSubmit` for an accepted payload: the request for `onUpdate`
        when editing, else for `onCreate`, then the feedback or the error. */
    method Save(payload: ProductInput, saveSucceeds: bool, failure: string)
      returns (request: SaveRequest)
      modifies this
      ensures request == if Truthy(old(editingId)) then UpdateRequest(old(editingId).value, payload)
                         else CreateRequest(payload)
      ensures !isSaving && error.None? == saveSucceeds
      ensures saveSucceeds ==>
                && form == EmptyForm && editingId == None
                && feedback == Some(if Truthy(old(editingId)) then UpdatedFeedback else CreatedFeedback)
      ensures !saveSucceeds ==>
                && form == old(form) && editingId == old(editingId)
                && feedback == old(feedback) && error == Some(OrElse(failure, SaveFailed))
    {
      isSaving := true;
      if IsEditing() {
        request := UpdateRequest(editingId.value, payload);
      } else {
        request := CreateRequest(payload);
      }
      if saveSucceeds {
        feedback := Some(if IsEditing() then UpdatedFeedback else CreatedFeedback);
        error := None;
        ResetForm();
      } else {
        error := Some(OrElse(failure, SaveFailed));
      }
      isSaving := false;
    }

    /** `handleSubmit`. `priceValue` is `Number(form.price)`; the save succeeds exactly when
        `saveSucceeds`, else fails with `failure`. Returns the validation outcome and the
        request handed to `onUpdate` or `onCreate`, if any. */
    method HandleSubmit(priceValue: Option<int>, saveSucceeds: bool, failure: string)
      returns (checked: Result<ProductInput, FormError>, request: Option<SaveRequest>)
      modifies this
      ensures checked == Validate(old(form), priceValue)
      ensures checked.Failure? ==>
                && request == None
                && error == Some(Message(checked.error)) && feedback == None
                && form == old(form) && editingId == old(editingId) && isSaving == old(isSaving)
      ensures checked.Success? ==>
                && request == Some(if Truthy(old(editingId)) then UpdateRequest(old(editingId).value, checked.value)
                                   else CreateRequest(checked.value))
                && !isSaving
      ensures checked.Success? && saveSucceeds ==>
                && form == EmptyForm && editingId == None && error == None
                && feedback == Some(if Truthy(old(editingId)) then UpdatedFeedback else CreatedFeedback)
      ensures checked.Success? && !saveSucceeds ==>
                && form == old(form) && editingId == old(editingId)
                && feedback == None && error == Some(OrElse(failure, SaveFailed))
    {
      feedback := None;
      error := None;
      checked := Validate(form, priceValue);
      if checked.Failure? {
        error := Some(Message(checked.error));
        return checked, None;
      }
      var r := Save(checked.value, saveSucceeds, failure);
      request := Some(r);
    }
  }
}
