/**
 * The inline product-request form, opened from the search screen with the searched name
 * filled in. It validates, submits and uploads as the modal does; it differs in that it
 * starts from, and resets to, its `productName` prop, is closed by its parent through
 * `onClose`, and renders nothing while `isOpen` is false.
 */
module ProductRequestForm {
  import opened Wrappers
  import opened Strings
  import opened Numbers
  import opened RequestProduct

  /** What the component renders: nothing while closed, else the form with its submit button's state. */
  datatype Rendered = Hidden | Shown(form: FormData, submitDisabled: bool)

  /** The `if (!isOpen) return null` guard and the rest of the render. */
  function Render(isOpen: bool, uploading: bool, form: FormData): (r: Rendered)
    ensures r.Hidden? <==> !isOpen
    ensures r.Shown? ==> r.form == form && (r.submitDisabled <==> uploading || IsBlank(form.productName))
  {
    SubmitDisabledIff(uploading, form);
    if !isOpen then Hidden else Shown(form, SubmitDisabled(uploading, form))
  }

  /** The name the form starts from and resets to: the prop, or the empty string when it is not given. */
  function PropName(productName: Option<string>): (n: string)
    ensures productName.None? ==> n == ""
    ensures productName.Some? ==> n == productName.value
  {
    productName.GetOr("")
  }

  /** The component's own state; `isOpen` and `onClose` belong to its parent. */
  class RequestForm {
    var uploading: bool
    var form: FormData

    /** The state `useState` starts from when the form mounts with the given prop. */
    constructor (productName: Option<string>)
      ensures !uploading && form == ResetForm(PropName(productName))
    {
      uploading := false;
      form := ResetForm(PropName(productName));
    }

    /** The synchronous part of `handleImageUpload`, with the same 5 MiB guard as the modal. */
    method StartUpload(size: Option<nat>) returns (started: bool)
      modifies this
      ensures started <==> size.Some? && UploadAccepted(size.value)
      ensures started ==> uploading && form == old(form)
      ensures !started ==> unchanged(this)
    {
      if size.None? || size.value > MAX_UPLOAD_BYTES {
        return false;
      }
      uploading := true;
      started := true;
    }

    /** The upload's end: the photo follows `ImageAfterUpload`, and `uploading` is cleared in every case. */
    method FinishUpload(reply: UploadReply)
      modifies this
      ensures !uploading
      ensures form == old(form).(image := ImageAfterUpload(old(form).image, reply))
    {
      form := form.(image := ImageAfterUpload(form.image, reply));
      uploading := false;
    }

    /**
     * `handleSubmit` under the prop value at the time of the click: a blank name sends nothing.
     * Otherwise the request is sent, and once it has succeeded the form is reset to the prop's
     * name and `onClose` is called; a failed request leaves the handler before either.
     */
    method Submit(productName: Option<string>, requestOk: bool) returns (sent: Option<RequestArgs>, closeCalled: bool)
      modifies this
      ensures sent == SubmitArgs(old(form))
      ensures closeCalled <==> sent.Some? && requestOk
      ensures !closeCalled ==> unchanged(this)
      ensures closeCalled ==> form == ResetForm(PropName(productName)) && uploading == old(uploading)
    {
      sent := SubmitArgs(form);
      if sent.None? || !requestOk {
        return sent, false;
      }
      form := ResetForm(PropName(productName));
      closeCalled := true;
    }
  }

  /**
   * Unlike the modal, the form comes back holding the searched name after a successful submit,
   * so a non-blank prop can be sent again at once, with quantity 1 and no photo.
   */
  method ResubmitRun(productName: string)
    returns (first: Option<RequestArgs>, second: Option<RequestArgs>)
    ensures first.None? <==> IsBlank(productName)
    ensures second == first
    ensures first.Some? ==> first.value == RequestArgs(Trim(productName), Finite(1), None)
  {
    var f := new RequestForm(Some(productName));
    var closed;
    first, closed := f.Submit(Some(productName), true);
    InitialQuantityIsOne();
    second, closed := f.Submit(Some(productName), true);
  }
}
