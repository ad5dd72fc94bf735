/**
 * The admin product manager (app/dashboard/page.tsx, `ProductManager`): the
 * product list with delete, and the modal form that creates or updates a
 * product, optionally uploading an image first. HTTP replies and the
 * confirmation answer are inputs; the price's `String`/`Number` conversions
 * are outside the model (the form and the payload carry the price text).
 */
module Dashboard {
  import opened Common
  import opened Blocks
  import opened Catalog

  /** The text fields of the modal form. */
  datatype Form = Form(name: string, price: string, description: string)

  const EmptyForm: Form := Form("", "", "")

  /** A file chosen in the image picker. */
  datatype LocalFile = LocalFile(name: string)

  /** The editor's state: modal visibility, the product being edited, the form, the chosen file, the busy flag. */
  datatype Editor = Editor(modalOpen: bool, editingId: Option<int>, form: Form, file: Option<LocalFile>, loading: bool)

  /** The state the manager mounts with. */
  const InitialEditor: Editor := Editor(false, None, EmptyForm, None, false)

  /** `closeModal()`: hide the modal and reset the form, the edited id and the file. */
  function CloseModal(e: Editor): (r: Editor)
    ensures !r.modalOpen && r.editingId.None? && r.form == EmptyForm && r.file.None?
    ensures r.loading == e.loading
  {
    Editor(false, None, EmptyForm, None, e.loading)
  }

  /** The "Add Product" button only shows the modal; whatever the form holds stays. */
  function OpenNew(e: Editor): (r: Editor)
    ensures r.modalOpen && r.(modalOpen := e.modalOpen) == e
  {
    e.(modalOpen := true)
  }

  /**
   * `openEdit(product)`: remember the product's id, fill the form from it
   * (the description through `BlocksToText`, the price through the page's
   * `String` conversion, here `showPrice`), clear the file, show the modal.
   */
  function OpenEdit(e: Editor, p: Product, showPrice: int -> string): (r: Editor)
    ensures r.modalOpen && r.editingId == Some(p.id) && r.file.None? && r.loading == e.loading
    ensures r.form.name == p.name && r.form.price == showPrice(p.price)
    ensures r.form.description == BlocksToText(p.description)
  {
    Editor(true, Some(p.id), Form(p.name, showPrice(p.price), BlocksToText(p.description)), None, e.loading)
  }

  /** The `data` object sent to the backend; `images` is absent unless a new image was uploaded. */
  datatype Payload = Payload(name: string, price: string, description: seq<Block>, images: Option<seq<int>>)

  datatype Request = Create(payload: Payload) | Update(id: int, payload: Payload)

  /** A JavaScript number is truthy unless it is 0 (`null` is `None`). */
  predicate TruthyId(v: Option<int>) {
    v.Some? && v.value != 0
  }

  /** The payload: the form's text fields, the description as blocks, and `[id]` for a truthy uploaded id. */
  function BuildPayload(form: Form, uploadedId: Option<int>): (p: Payload)
    ensures p.name == form.name && p.price == form.price
    ensures p.description == TextToBlocks(form.description)
    ensures BlocksToText(Some(p.description)) == form.description
    ensures p.images.Some? <==> TruthyId(uploadedId)
    ensures p.images.Some? ==> p.images.value == [uploadedId.value]
  {
    TextRoundTrip(form.description);
    Payload(form.name, form.price, TextToBlocks(form.description),
            if TruthyId(uploadedId) then Some([uploadedId.value]) else None)
  }

  /** A truthy edited id selects an update of that product; anything else creates one. */
  function Target(editingId: Option<int>, payload: Payload): (r: Request)
    ensures r.payload == payload
    ensures r.Update? <==> TruthyId(editingId)
    ensures r.Update? ==> r.id == editingId.value
  {
    if TruthyId(editingId) then Update(editingId.value, payload) else Create(payload)
  }

  /** The upload endpoint's reply: the ids of the stored files, or a failed request. */
  datatype UploadReply = UploadFailed | Uploaded(ids: seq<int>)

  /**
   * The replies a submit meets: the upload (consulted only when a file is
   * chosen), the create/update request, and the list reload, which swallows
   * its own failure (`None`).
   */
  datatype SaveReplies = SaveReplies(upload: UploadReply, saved: bool, refetched: Option<seq<Product>>)

  datatype SubmitOutcome = SubmitOutcome(
    editor: Editor,
    products: seq<Product>,
    uploadSent: bool,
    request: Option<Request>,
    alerted: bool)

  /** The uploaded id the payload is built from; `Error` where `uploadRes.data[0].id` or the upload throws. */
  function UploadedId(file: Option<LocalFile>, upload: UploadReply): (r: Result<Option<int>>)
    ensures file.None? ==> r == Ok(None)
    ensures file.Some? && r.Ok? ==> upload.Uploaded? && |upload.ids| > 0 && r.value == Some(upload.ids[0])
    ensures file.Some? && r.Error? ==> upload.UploadFailed? || upload.ids == []
  {
    if file.None? then Ok(None)
    else match upload
      case UploadFailed => Error("upload failed")
      case Uploaded(ids) => if |ids| == 0 then Error("no uploaded file") else Ok(Some(ids[0]))
  }

  /**
   * `handleSubmit`: upload the chosen file, build the payload, create or
   * update, then reload the list and close the modal. Any failure raises an
   * alert and keeps the form as it was; loading is off at the end either way.
   */
  function HandleSubmit(e: Editor, products: seq<Product>, replies: SaveReplies): (r: SubmitOutcome)
    ensures !r.editor.loading
    ensures r.uploadSent <==> e.file.Some?
    ensures r.request.Some? <==> UploadedId(e.file, replies.upload).Ok?
    ensures r.request.Some?
            ==> r.request.value == Target(e.editingId, BuildPayload(e.form, UploadedId(e.file, replies.upload).value))
    ensures r.request.Some? && e.file.None? ==> r.request.value.payload.images.None?
    ensures r.alerted <==> r.request.None? || !replies.saved
    ensures r.alerted ==> r.editor == e.(loading := false) && r.products == products
    ensures !r.alerted ==> r.editor == CloseModal(e).(loading := false)
    ensures !r.alerted ==> r.products == replies.refetched.GetOr(products)
  {
    var failed := SubmitOutcome(e.(loading := false), products, e.file.Some?, None, true);
    match UploadedId(e.file, replies.upload)
    case Error(_) => failed
    case Ok(uploadedId) =>
      var request := Target(e.editingId, BuildPayload(e.form, uploadedId));
      if !replies.saved then failed.(request := Some(request))
      else SubmitOutcome(CloseModal(e).(loading := false), replies.refetched.GetOr(products),
                         e.file.Some?, Some(request), false)
  }

  /**
   * Editing a product and saving without a new image sends an update of
   * that product with its name, price text and first-paragraph description,
   * and no `images` field, so its images are kept.
   */
  lemma EditThenSave(e: Editor, p: Product, showPrice: int -> string, products: seq<Product>,
                     upload: UploadReply, refetched: Option<seq<Product>>)
    requires p.id != 0
    ensures var r := HandleSubmit(OpenEdit(e, p, showPrice), products, SaveReplies(upload, true, refetched));
            r.request == Some(Update(p.id, Payload(p.name, showPrice(p.price),
                                                   TextToBlocks(BlocksToText(p.description)), None)))
            && r.editor == CloseModal(e).(loading := false)
  {
  }

  /** A description written by this editor is sent back unchanged when the product is edited and saved. */
  lemma EditKeepsOwnDescription(e: Editor, p: Product, showPrice: int -> string, products: seq<Product>,
                                upload: UploadReply, refetched: Option<seq<Product>>, text: string)
    requires p.id != 0 && p.description == Some(TextToBlocks(text))
    ensures var r := HandleSubmit(OpenEdit(e, p, showPrice), products, SaveReplies(upload, true, refetched));
            r.request.Some? && Some(r.request.value.payload.description) == p.description
  {
  }

  /** A product whose id is 0 (falsy) is created anew instead of updated when edited and saved. */
  lemma ZeroIdEditCreates(e: Editor, p: Product, showPrice: int -> string, products: seq<Product>,
                          upload: UploadReply, refetched: Option<seq<Product>>)
    requires p.id == 0
    ensures var r := HandleSubmit(OpenEdit(e, p, showPrice), products, SaveReplies(upload, true, refetched));
            r.request.Some? && r.request.value.Create?
  {
  }

  /** After a successful save the next "Add Product" starts from an empty create form. */
  lemma SaveThenNewIsBlank(e: Editor, products: seq<Product>, replies: SaveReplies)
    requires !HandleSubmit(e, products, replies).alerted
    ensures var next := OpenNew(HandleSubmit(e, products, replies).editor);
            next.modalOpen && next.form == EmptyForm && next.editingId.None? && next.file.None?
            && Target(next.editingId, BuildPayload(next.form, None)).Create?
  {
  }

  /** On a freshly mounted manager, "Add Product" opens an empty form that creates and attaches no image. */
  lemma FirstOpenIsBlank()
    ensures var e := OpenNew(InitialEditor);
            && e.modalOpen && e.form == EmptyForm && e.editingId.None? && e.file.None? && !e.loading
            && Target(e.editingId, BuildPayload(e.form, None)) == Create(Payload("", "", TextToBlocks(""), None))
  {
  }

  /**
   * The list row's thumbnail: the base-URL variable as interpolated followed
   * by a truthy first-image url, with no check for absolute urls, or no
   * image at all (an icon is shown instead).
   */
  function RowImage(env: Env, p: Product): (r: Option<string>)
    ensures r.Some? <==> Truthy(FirstImageUrl(p))
    ensures r.Some? ==> r.value == Interpolate(env.strapiBaseUrl) + FirstImageUrl(p).value
  {
    var url := FirstImageUrl(p);
    if Truthy(url) then Some(Interpolate(env.strapiBaseUrl) + url.value) else None
  }

  datatype DeleteOutcome = DeleteOutcome(products: seq<Product>, requested: bool, alerted: bool)

  function ProductId(p: Product): int {
    p.id
  }

  /**
   * `handleDelete(id)`: nothing without confirmation; after a successful
   * request exactly the products with that id are gone, the rest in order;
   * a failed request alerts and keeps the list.
   */
  function HandleDelete(products: seq<Product>, id: int, confirmed: bool, deleted: bool): (r: DeleteOutcome)
    ensures !confirmed ==> r == DeleteOutcome(products, false, false)
    ensures confirmed ==> r.requested && (r.alerted <==> !deleted)
    ensures confirmed && !deleted ==> r.products == products
    ensures confirmed && deleted ==> forall i :: 0 <= i < |r.products| ==> r.products[i].id != id && r.products[i] in products
    ensures confirmed && deleted ==> forall i :: 0 <= i < |products| && products[i].id != id ==> products[i] in r.products
  {
    if !confirmed then DeleteOutcome(products, false, false)
    else if !deleted then DeleteOutcome(products, true, true)
    else DeleteOutcome(WithoutKey(products, ProductId, id), true, false)
  }

  /** Deleting keeps the survivors' order: deleting from a concatenation deletes from each part. */
  lemma DeleteKeepsOrder(front: seq<Product>, back: seq<Product>, id: int)
    ensures HandleDelete(front + back, id, true, true).products
         == HandleDelete(front, id, true, true).products + HandleDelete(back, id, true, true).products
  {
    WithoutKeyAppend(front, back, ProductId, id);
  }

  /** Deleting an id no product carries changes nothing, and deleting twice equals deleting once. */
  lemma DeleteAbsentAndTwice(products: seq<Product>, id: int)
    ensures (forall i :: 0 <= i < |products| ==> products[i].id != id)
            ==> HandleDelete(products, id, true, true).products == products
    ensures var once := HandleDelete(products, id, true, true).products;
            HandleDelete(once, id, true, true).products == once
  {
    if forall i :: 0 <= i < |products| ==> products[i].id != id {
      WithoutAbsentKey(products, ProductId, id);
    }
    WithoutKeyIdempotent(products, ProductId, id);
  }
}
