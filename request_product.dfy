/**
 * The "Request Product" modal: a form with a product name, a quantity and an optional photo
 * uploaded to an image host. The submit sends the trimmed name, the quantity as `parseInt`
 * reads it and the photo URL; the upload stores the host's URL rewritten to a resized variant.
 * The form values and the upload rule are shared with the inline request form.
 */
module RequestProduct {
  import opened Wrappers
  import opened Strings
  import opened Numbers

  /** The form's three text fields. */
  datatype FormData = FormData(productName: string, quantity: string, image: string)

  const INITIAL_QUANTITY: string := "1"

  /** The form as it is first shown and as a submit leaves it: the given name, quantity 1, no photo. */
  function ResetForm(name: string): (f: FormData)
    ensures f.productName == name && f.quantity == INITIAL_QUANTITY && f.image == ""
  {
    FormData(name, INITIAL_QUANTITY, "")
  }

  /** The arguments of the `requestProduct` call. */
  datatype RequestArgs = RequestArgs(productName: string, quantity: JsNumber, image: Option<string>)

  /**
   * The validation and arguments of `handleSubmit`: nothing is sent for a blank name; otherwise
   * the trimmed name, `parseInt(quantity)` and the photo, absent when empty.
   */
  function SubmitArgs(form: FormData): (r: Option<RequestArgs>)
    ensures r.None? <==> IsBlank(form.productName)
    ensures r.Some? ==> r.value.productName == Trim(form.productName) && r.value.productName != []
    ensures r.Some? ==> r.value.quantity == ParseInt(form.quantity)
    ensures r.Some? ==> r.value.image == if form.image == "" then None else Some(form.image)
  {
    TrimEmptyIffBlank(form.productName);
    var name := Trim(form.productName);
    if name == [] then None
    else Some(RequestArgs(name, ParseInt(form.quantity), if form.image != "" then Some(form.image) else None))
  }

  /**
   * The name sent has no whitespace at either end, is a slice of what was typed with only
   * whitespace around it, and is unchanged by trimming it again.
   */
  lemma SubmittedNameIsTrimmed(form: FormData)
    requires !IsBlank(form.productName)
    ensures SubmitArgs(form).Some?
    ensures var n := SubmitArgs(form).value.productName;
      && !IsWhitespace(n[0]) && !IsWhitespace(n[|n| - 1])
      && Trim(n) == n
      && exists i, j :: 0 <= i <= j <= |form.productName| && n == form.productName[i..j]
           && IsBlank(form.productName[..i]) && IsBlank(form.productName[j..])
  {
    TrimIsInnerSlice(form.productName);
    TrimIdempotent(form.productName);
  }

  /** A quantity typed as an integer, possibly after blanks and before a non-digit, is sent as that integer. */
  lemma SubmittedQuantityReadsNumeral(form: FormData, n: int, before: string, after: string)
    requires !IsBlank(form.productName)
    requires form.quantity == before + IntString(n) + after
    requires IsBlank(before) && (after == [] || !IsDigit(after[0]))
    ensures SubmitArgs(form).Some? && SubmitArgs(form).value.quantity == Finite(n)
  {
    ParseIntReadsNumeral(n, before, after);
  }

  /** A quantity with no leading digits (the empty field, say) is sent as NaN. */
  lemma SubmittedQuantityWithoutDigits(form: FormData)
    requires !IsBlank(form.productName)
    requires var rest := SplitSign(TrimStart(form.quantity)).1; rest == [] || !IsDigit(rest[0])
    ensures SubmitArgs(form).Some? && SubmitArgs(form).value.quantity == NaN
  {
    ParseIntNaNIff(form.quantity);
  }

  /** The untouched quantity field, "1", is sent as 1. */
  lemma InitialQuantityIsOne()
    ensures ParseInt(INITIAL_QUANTITY) == Finite(1)
  {
    assert INITIAL_QUANTITY == "" + IntString(1) + "";
    ParseIntReadsNumeral(1, "", "");
  }

  /** `disabled={uploading || !formData.productName.trim()}`. */
  predicate SubmitDisabled(uploading: bool, form: FormData) {
    uploading || Trim(form.productName) == []
  }

  /** The button is disabled exactly while uploading or while the name is blank; an enabled button sends. */
  lemma SubmitDisabledIff(uploading: bool, form: FormData)
    ensures SubmitDisabled(uploading, form) <==> uploading || IsBlank(form.productName)
    ensures !SubmitDisabled(uploading, form) ==> SubmitArgs(form).Some?
  {
    TrimEmptyIffBlank(form.productName);
  }

  // ---------------------------------------------------------------------------
  // the photo upload

  /** The largest file accepted for upload, in bytes. */
  const MAX_UPLOAD_BYTES: nat := 5 * 1024 * 1024

  const UPLOAD_SEGMENT: string := "/upload/"
  const RESIZED_SEGMENT: string := "/upload/w_800,q_auto/"

  /** A picked file goes to the image host only when it is at most 5 MiB. */
  predicate UploadAccepted(size: nat) {
    size <= MAX_UPLOAD_BYTES
  }

  /** What the image host answered: its JSON body's `secure_url`, if any, or a failed request. */
  datatype UploadReply = Uploaded(secureUrl: Option<string>) | UploadFailed

  /** The host's URL with its first `/upload/` segment turned into the 800-pixel, auto-quality variant. */
  function OptimizedUrl(url: string): string {
    ReplaceFirst(url, UPLOAD_SEGMENT, RESIZED_SEGMENT)
  }

  /**
   * For a URL whose first `/upload/` follows `prefix`, the resize options are inserted right
   * after it and the rest, later `/upload/` segments included, is kept.
   */
  lemma OptimizedUrlInsertsOptions(prefix: string, rest: string)
    requires forall j :: 0 <= j < |prefix| ==> !OccursAt(UPLOAD_SEGMENT, prefix + UPLOAD_SEGMENT + rest, j)
    ensures OptimizedUrl(prefix + UPLOAD_SEGMENT + rest) == prefix + RESIZED_SEGMENT + rest
  {
    var url := prefix + UPLOAD_SEGMENT + rest;
    assert url[|prefix|..|prefix| + |UPLOAD_SEGMENT|] == UPLOAD_SEGMENT;
    assert OccursAt(UPLOAD_SEGMENT, url, |prefix|);
    var i := IndexOf(url, UPLOAD_SEGMENT);
    assert i.Some? && i.value == |prefix|;
    assert url[..|prefix|] == prefix;
    assert url[|prefix| + |UPLOAD_SEGMENT|..] == rest;
  }

  /** A URL without `/upload/` is stored as it came. */
  lemma OptimizedUrlWithoutSegment(url: string)
    requires forall j :: !OccursAt(UPLOAD_SEGMENT, url, j)
    ensures OptimizedUrl(url) == url
  {
  }

  /**
   * The photo after an upload finishes: the rewritten URL when the reply carries a non-empty
   * `secure_url`, and the previous photo otherwise.
   */
  function ImageAfterUpload(current: string, reply: UploadReply): (image: string)
    ensures reply.Uploaded? && reply.secureUrl.Some? && reply.secureUrl.value != "" ==>
      image == OptimizedUrl(reply.secureUrl.value)
    ensures !(reply.Uploaded? && reply.secureUrl.Some? && reply.secureUrl.value != "") ==> image == current
  {
    match reply
    case Uploaded(Some(url)) => if url != "" then OptimizedUrl(url) else current
    case _ => current
  }

  /** The modal's own state. */
  class RequestProductModal {
    var isOpen: bool
    var uploading: bool
    var form: FormData

    constructor ()
      ensures !isOpen && !uploading && form == ResetForm("")
    {
      isOpen := false;
      uploading := false;
      form := ResetForm("");
    }

    /** The floating button opens the modal; the cross closes it. Neither touches the form. */
    method SetOpen(open: bool)
      modifies this
      ensures isOpen == open && uploading == old(uploading) && form == old(form)
    {
      isOpen := open;
    }

    /**
     * The synchronous part of `handleImageUpload`: nothing happens without a file or with one
     * over 5 MiB; otherwise `uploading` is set and the upload starts.
     */
    method StartUpload(size: Option<nat>) returns (started: bool)
      modifies this
      ensures started <==> size.Some? && UploadAccepted(size.value)
      ensures started ==> uploading && isOpen == old(isOpen) && form == old(form)
      ensures !started ==> unchanged(this)
    {
      if size.None? || size.value > MAX_UPLOAD_BYTES {
        return false;
      }
      uploading := true;
      started := true;
    }

    /** The upload's end: the photo is updated as `ImageAfterUpload` says and `uploading` is cleared whatever the reply. */
    method FinishUpload(reply: UploadReply)
      modifies this
      ensures !uploading && isOpen == old(isOpen)
      ensures form == old(form).(image := ImageAfterUpload(old(form).image, reply))
    {
      form := form.(image := ImageAfterUpload(form.image, reply));
      uploading := false;
    }

    /**
     * `handleSubmit`: a blank name sends nothing and changes nothing. Otherwise the request is
     * sent; once it has succeeded the form is reset and the modal closed, and when it fails the
     * error leaves the handler before either happens.
     */
    method Submit(requestOk: bool) returns (sent: Option<RequestArgs>)
      modifies this
      ensures sent == SubmitArgs(old(form))
      ensures sent.None? || !requestOk ==> unchanged(this)
      ensures sent.Some? && requestOk ==> form == ResetForm("") && !isOpen && uploading == old(uploading)
    {
      sent := SubmitArgs(form);
      if sent.None? || !requestOk {
        return;
      }
      form := ResetForm("");
      isOpen := false;
    }
  }

  /**
   * A successful submit leaves a form with a blank name, and a blocked one leaves the blank
   * name in place, so submitting again right away sends nothing; after a success the modal
   * is closed.
   */
  method ResubmitRun(name: string, quantity: string, image: string)
    returns (first: Option<RequestArgs>, second: Option<RequestArgs>, openAfter: bool)
    ensures first.None? <==> IsBlank(name)
    ensures second.None?
    ensures first.Some? ==> !openAfter
  {
    var modal := new RequestProductModal();
    modal.SetOpen(true);
    modal.form := FormData(name, quantity, image);
    first := modal.Submit(true);
    second := modal.Submit(true);
    openAfter := modal.isOpen;
  }
}
