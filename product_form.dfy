/**
 * The older combined create/edit product form. With a route `id` it is in
 * edit mode: it loads the product into its record and shows the stored
 * image, and submits to `PUT /products/:id`; without one it starts empty
 * and submits to `POST /products`. Each input replaces one field of the
 * record; the browser's `required` attributes keep an incomplete form from
 * being submitted.
 */
module ProductForm {
  import opened Platform
  import opened Backend

  const LoadFailure := "Failed to load product"
  const UpdatedToast := "Product updated successfully"
  const CreatedToast := "Product created successfully"
  const Fallback := "Operation failed"

  /** `!!id`. */
  predicate IsEditMode(id: Option<string>) {
    Truthy(id)
  }

  /** The `formData` record; the price is the input's text, or the number the server sent. */
  datatype FormState = FormState(name: string, description: string, price: FormValue, image: Option<File>)

  const Initial := FormState("", "", Text(""), None)

  /** The inputs `handleChange` serves, by their `name` attribute. */
  datatype FieldName = NameField | DescriptionField | PriceField

  /** `{ ...formData, [name]: value }`: the named field takes the value, and every other field stays. */
  function WithField(f: FormState, field: FieldName, value: string): (r: FormState)
    ensures field.NameField? ==> r.name == value
    ensures field.DescriptionField? ==> r.description == value
    ensures field.PriceField? ==> r.price == Text(value)
    ensures !field.NameField? ==> r.name == f.name
    ensures !field.DescriptionField? ==> r.description == f.description
    ensures !field.PriceField? ==> r.price == f.price
    ensures r.image == f.image
  {
    match field
    case NameField => f.(name := value)
    case DescriptionField => f.(description := value)
    case PriceField => f.(price := Text(value))
  }

  /** The last edit of a field wins, and edits of different fields can be made in either order. */
  lemma WithFieldLastWins(f: FormState, a: FieldName, b: FieldName, x: string, y: string)
    ensures WithField(WithField(f, a, x), a, y) == WithField(f, a, y)
    ensures a != b ==> WithField(WithField(f, a, x), b, y) == WithField(WithField(f, b, y), a, x)
  {
  }

  /** What the preview shows: a URL (the stored image, possibly empty or missing) or an object URL of the chosen file. */
  datatype Preview = Url(url: Option<string>) | ObjectUrl(file: File)

  /** `{preview && <img …/>}`. */
  predicate PreviewShown(preview: Preview) {
    preview.ObjectUrl? || Truthy(preview.url)
  }

  /** The `FormData` of `handleSubmit`: name, description, price, and the file when one is set. */
  function FormDataOf(f: FormState): seq<Part> {
    [Part("name", Text(f.name)), Part("description", Text(f.description)), Part("price", f.price)]
    + (if f.image.Some? then [Part("image", Upload(f.image.value))] else [])
  }

  /** The form carries the three fields in order, and an `image` part exactly when a file is set. */
  lemma FormDataParts(f: FormState)
    ensures |FormDataOf(f)| == (if f.image.Some? then 4 else 3)
    ensures FormDataOf(f)[0] == Part("name", Text(f.name))
    ensures FormDataOf(f)[1] == Part("description", Text(f.description))
    ensures FormDataOf(f)[2] == Part("price", f.price)
    ensures (exists i :: 0 <= i < |FormDataOf(f)| && FormDataOf(f)[i].key == "image") <==> f.image.Some?
  {
    var d := FormDataOf(f);
    if f.image.None? {
      assert forall i :: 0 <= i < |d| ==> d[i].key != "image";
    } else {
      assert d[3].key == "image";
    }
  }

  /** The appends of `handleSubmit`, one after another. */
  method BuildFormData(f: FormState) returns (parts: seq<Part>)
    ensures parts == FormDataOf(f)
  {
    parts := [];
    parts := parts + [Part("name", Text(f.name))];
    parts := parts + [Part("description", Text(f.description))];
    parts := parts + [Part("price", f.price)];
    if f.image.Some? {
      parts := parts + [Part("image", Upload(f.image.value))];
    }
  }

  /** The inputs' `required` attributes: the browser submits only with all three filled. */
  predicate Filled(f: FormState) {
    f.name != "" && f.description != "" && f.price != Text("")
  }

  /** The call `handleSubmit` makes: the edit endpoint in edit mode, the create endpoint otherwise. */
  function SubmitRequest(id: Option<string>, f: FormState): (r: Request)
    ensures IsEditMode(id) <==> r.UpdateProduct?
    ensures IsEditMode(id) ==> r == UpdateProduct(id.value, FormDataOf(f))
    ensures !IsEditMode(id) ==> r == CreateProduct(FormDataOf(f))
  {
    if IsEditMode(id) then UpdateProduct(id.value, FormDataOf(f)) else CreateProduct(FormDataOf(f))
  }

  // ----- the page -----

  datatype Page = Page(
    id: Option<string>,
    form: FormState,
    preview: Preview,
    loading: bool,  // the edit-mode load has been asked for and has not arrived
    toasts: seq<string>,
    location: Option<Navigation>,
    requests: seq<Request>)

  /** Only edit mode loads, and its load is the first request. */
  predicate Valid(p: Page) {
    && (p.loading ==> IsEditMode(p.id) && |p.requests| >= 1 && p.requests[0] == GetProduct(p.id.value))
    && (!IsEditMode(p.id) ==> forall i :: 0 <= i < |p.requests| ==> p.requests[i].CreateProduct?)
  }

  /** The page once its effect has run: empty, and in edit mode asking for the product. */
  function Mount(id: Option<string>): (p: Page)
    ensures Valid(p) && p.form == Initial && p.preview == Url(Some(""))
    ensures p.requests == (if IsEditMode(id) then [GetProduct(id.value)] else [])
  {
    Page(id, Initial, Url(Some("")), IsEditMode(id), [], None, if IsEditMode(id) then [GetProduct(id.value)] else [])
  }

  datatype Event =
    | Loaded(reply: Reply<Product>)
    | Change(field: FieldName, value: string)
    | ImageChange(file: Option<File>)  // `e.target.files[0]`: none when the choice is cancelled
    | Submit(outcome: Reply<()>)       // the submit, with how the call it makes ends

  function Step(p: Page, e: Event): (q: Page)
    requires Valid(p)
    ensures Valid(q)
    ensures q.id == p.id
  {
    if p.location.Some? then p
    else match e
    case Loaded(reply) =>
      if !p.loading then p
      else if reply.Ok? then
        var d := reply.value;
        p.(form := FormState(d.name, d.description, Amount(d.price), None), preview := Url(d.image), loading := false)
      else p.(toasts := p.toasts + [LoadFailure], location := Some(Navigate("/", None)), loading := false)
    case Change(field, value) => p.(form := WithField(p.form, field, value))
    case ImageChange(file) =>
      // `URL.createObjectURL(undefined)` throws after the record is set, so the preview stays
      p.(form := p.form.(image := file), preview := if file.Some? then ObjectUrl(file.value) else p.preview)
    case Submit(outcome) =>
      if !Filled(p.form) then p
      else
        var p' := p.(requests := p.requests + [SubmitRequest(p.id, p.form)]);
        if outcome.Ok? then
          p'.(toasts := p.toasts + [if IsEditMode(p.id) then UpdatedToast else CreatedToast],
              location := Some(Navigate("/", None)))
        else p'.(toasts := p.toasts + [Or(outcome.message, Fallback)])
  }

  /** In create mode nothing is loaded; in edit mode the product is asked for once. */
  lemma MountLoadsOnlyInEditMode(id: Option<string>)
    ensures Mount(id).requests == [] <==> !IsEditMode(id)
    ensures IsEditMode(id) ==> Mount(id).requests == [GetProduct(id.value)]
  {
  }

  /** The load copies name, description and price, clears the file and previews the stored image; a failed load goes home. */
  lemma LoadOutcome(p: Page, reply: Reply<Product>)
    requires Valid(p) && p.loading && p.location.None?
    ensures var q := Step(p, Loaded(reply));
      && !q.loading && q.requests == p.requests
      && (reply.Ok? ==>
            && q.form == FormState(reply.value.name, reply.value.description, Amount(reply.value.price), None)
            && q.preview == Url(reply.value.image))
      && (reply.Fail? ==> q.location == Some(Navigate("/", None)) && q.toasts == p.toasts + [LoadFailure])
  {
  }

  /** Choosing a file changes only the record's `image` and the preview, which then shows that file. */
  lemma ImageChangeOnlyImage(p: Page, file: File)
    requires Valid(p) && p.location.None?
    ensures var q := Step(p, ImageChange(Some(file)));
      && q.form == p.form.(image := Some(file))
      && q.preview == ObjectUrl(file) && PreviewShown(q.preview)
      && q.requests == p.requests && q.toasts == p.toasts
  {
  }

  /**
   * A filled form is sent to the edit endpoint in edit mode and to the create
   * endpoint otherwise, with the file only when one is set; both end at home
   * on success. An unfilled form is not sent.
   */
  lemma SubmitEndpoint(p: Page, outcome: Reply<()>)
    requires Valid(p) && p.location.None?
    ensures var q := Step(p, Submit(outcome));
      && (!Filled(p.form) ==> q == p)
      && (Filled(p.form) && IsEditMode(p.id) ==>
            q.requests == p.requests + [UpdateProduct(p.id.value, FormDataOf(p.form))])
      && (Filled(p.form) && !IsEditMode(p.id) ==>
            q.requests == p.requests + [CreateProduct(FormDataOf(p.form))])
      && (Filled(p.form) && outcome.Ok? ==> q.location == Some(Navigate("/", None)))
      && (Filled(p.form) && outcome.Ok? && IsEditMode(p.id) ==> q.toasts == p.toasts + [UpdatedToast])
      && (Filled(p.form) && outcome.Ok? && !IsEditMode(p.id) ==> q.toasts == p.toasts + [CreatedToast])
      && (Filled(p.form) && outcome.Fail? ==>
            q.location.None? && q.toasts == p.toasts + [FailureText(outcome, Fallback)])
  {
  }

  function Run(p: Page, events: seq<Event>): (q: Page)
    requires Valid(p)
    ensures Valid(q)
    decreases |events|
  {
    if events == [] then p else Run(Step(p, events[0]), events[1..])
  }

  /** Whatever the user does, a form opened without an id only ever creates products. */
  lemma {:induction false} CreateModeOnlyCreates(id: Option<string>, events: seq<Event>)
    requires !IsEditMode(id)
    ensures var q := Run(Mount(id), events);
      forall i :: 0 <= i < |q.requests| ==> q.requests[i].CreateProduct?
  {
    var q := Run(Mount(id), events);
    assert Valid(q) && q.id == id by {
      RunKeepsId(Mount(id), events);
    }
  }

  lemma {:induction false} RunKeepsId(p: Page, events: seq<Event>)
    requires Valid(p)
    ensures Run(p, events).id == p.id
    decreases |events|
  {
    if events != [] {
      RunKeepsId(Step(p, events[0]), events[1..]);
    }
  }

  /** The page with its state in fields. */
  class ProductFormPage {
    const id: Option<string>
    var form: FormState
    var preview: Preview
    var loading: bool
    var toasts: seq<string>
    var location: Option<Navigation>
    var requests: seq<Request>

    function State(): Page
      reads this
    {
      Page(id, form, preview, loading, toasts, location, requests)
    }

    constructor (id: Option<string>)
      ensures State() == Mount(id)
    {
      this.id := id;
      form := Initial;
      preview := Url(Some(""));
      toasts := [];
      location := None;
      if id.Some? && id.value != "" {
        loading := true;
        requests := [GetProduct(id.value)];
      } else {
        loading := false;
        requests := [];
      }
    }

    /** The rest of the edit-mode `fetchProduct`. */
    method FetchSettled(reply: Reply<Product>)
      requires Valid(State())
      modifies this
      ensures State() == Step(old(State()), Loaded(reply))
    {
      if location.Some? || !loading {
        return;
      }
      match reply {
        case Ok(d) =>
          form := FormState(d.name, d.description, Amount(d.price), None);
          preview := Url(d.image);
        case Fail(_) =>
          toasts := toasts + [LoadFailure];
          location := Some(Navigate("/", None));
      }
      loading := false;
    }

    method HandleChange(field: FieldName, value: string)
      requires Valid(State())
      modifies this
      ensures State() == Step(old(State()), Change(field, value))
    {
      if location.None? {
        form := WithField(form, field, value);
      }
    }

    method HandleImageChange(file: Option<File>)
      requires Valid(State())
      modifies this
      ensures State() == Step(old(State()), ImageChange(file))
    {
      if location.Some? {
        return;
      }
      form := form.(image := file);
      if file.Some? {
        preview := ObjectUrl(file.value);
      }
    }

    method HandleSubmit(outcome: Reply<()>)
      requires Valid(State())
      modifies this
      ensures State() == Step(old(State()), Submit(outcome))
    {
      if location.Some? || !Filled(form) {
        return;
      }
      var data := BuildFormData(form);
      if id.Some? && id.value != "" {
        requests := requests + [UpdateProduct(id.value, data)];
      } else {
        requests := requests + [CreateProduct(data)];
      }
      match outcome {
        case Ok(_) =>
          toasts := toasts + [if id.Some? && id.value != "" then UpdatedToast else CreatedToast];
          location := Some(Navigate("/", None));
        case Fail(m) =>
          toasts := toasts + [Or(m, Fallback)];
      }
    }
  }
}
