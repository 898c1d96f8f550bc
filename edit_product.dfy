/**
 * The edit product page. It loads the product named by the route's `id`
 * into the form, resolves the stored image to a URL, shows the new file's
 * preview over the stored image, takes image files by drag and drop, and
 * on submit sends the form (with the image only when a new one was chosen)
 * to `PUT /products/:id`. A failed load sends the user home.
 */
module EditProduct {
  import opened Platform
  import opened Backend
  import opened FormRules
  import opened ProductFields

  /** The server's uploads folder, `http://localhost:3006/uploads/`. */
  const UploadsBase := "http://" + "localhost:3006/uploads/"
  const LoadFailure := "Failed to load product details"
  const UpdatedToast := "Product updated successfully!"
  const UpdateFallback := "Failed to update product. Please try again."

  // ----- the images -----

  /** A stored image as a URL: kept when it is already an `http` URL, else a file in the uploads folder. */
  function ResolveImage(image: string): (r: string)
    ensures StartsWith(r, "http")
  {
    assert StartsWith(UploadsBase, "http") by {
      assert "http" <= "http://";
    }
    if StartsWith(image, "http") then image else UploadsBase + image
  }

  /** Resolution keeps URLs, prefixes file names with the uploads folder, and does nothing to what it produced. */
  lemma ResolveImageProperties(image: string)
    ensures StartsWith(image, "http") ==> ResolveImage(image) == image
    ensures !StartsWith(image, "http") ==> ResolveImage(image) == UploadsBase + image
    ensures ResolveImage(ResolveImage(image)) == ResolveImage(image)
  {
  }

  /** What the image area shows: the new file's preview, or else the stored image. */
  datatype Shown = NewFile(file: File) | Stored(url: string)

  /** `imagePreview || existingImage`. */
  function DisplayImage(preview: Option<File>, existing: Option<string>): (r: Option<Shown>)
    ensures preview.Some? ==> r == Some(NewFile(preview.value))
    ensures preview.None? ==> (r.Some? <==> existing.Some?)
    ensures preview.None? && existing.Some? ==> r == Some(Stored(existing.value))
  {
    if preview.Some? then Some(NewFile(preview.value))
    else if existing.Some? then Some(Stored(existing.value))
    else None
  }

  // ----- the page -----

  /** The form before the product arrives: `useForm()` has no defaults, so the inputs are empty. */
  const EmptyValues := Values("", "", None, "", false, None)

  datatype Page = Page(
    id: string,
    values: Values,
    existingImage: Option<string>,
    preview: Option<File>,
    isDragging: bool,
    isSubmitting: bool,
    loading: bool,
    toasts: seq<string>,
    location: Option<Navigation>,
    requests: seq<Request>)

  /** The preview always follows the chosen file, the stored image is always an `http` URL, and nothing is submitted before the load. */
  predicate Valid(p: Page) {
    && p.preview == PreviewOf(p.values.image)
    && (p.loading ==> !p.isSubmitting)
    && (p.existingImage.Some? ==> StartsWith(p.existingImage.value, "http"))
  }

  function Mount(id: string): (p: Page)
    ensures Valid(p) && p.loading && !p.isSubmitting && p.requests == [GetProduct(id)]
  {
    Page(id, EmptyValues, None, None, false, false, true, [], None, [GetProduct(id)])
  }

  datatype Event =
    | Loaded(reply: Reply<Product>)
    | Edit(values: Values)      // the user types, picks, ticks or chooses a file in the form
    | DragEnter
    | DragLeave
    | DragOver
    | Drop(files: seq<File>)
    | Submit
    | Submitted(outcome: Reply<()>)

  /** `fetchProduct`'s `setValue` calls: every field but `image` comes from the server. */
  function LoadValues(v: Values, product: Product): Values {
    v.(name := product.name, description := product.description, price := Some(product.price),
       category := product.category, inStock := product.inStock)
  }

  function Step(p: Page, e: Event): (q: Page)
    requires Valid(p)
    ensures Valid(q)
    ensures q.id == p.id
  {
    if p.location.Some? || (p.loading && !e.Loaded?) then p  // while loading only the spinner is shown
    else match e
    case Loaded(reply) =>
      if !p.loading then p
      else if reply.Ok? then
        var product := reply.value;
        p.(values := LoadValues(p.values, product), loading := false,
           existingImage := if Truthy(product.image) then Some(ResolveImage(product.image.value)) else p.existingImage)
      else p.(toasts := p.toasts + [LoadFailure], location := Some(Navigate("/", None)), loading := false)
    case Edit(v) => p.(values := v, preview := PreviewOf(v.image))
    case DragEnter => p.(isDragging := true)
    case DragLeave => p.(isDragging := false)
    case DragOver => p
    case Drop(files) =>
      var v := AfterDrop(p.values, files);
      p.(isDragging := false, values := v, preview := PreviewOf(v.image),
         toasts := if DropRefused(files) then p.toasts + [DropRejected] else p.toasts)
    case Submit =>
      if p.isSubmitting || FormErrors(Fields(p.values)) != [] then p
      else p.(isSubmitting := true, requests := p.requests + [UpdateProduct(p.id, FormOf(p.values))])
    case Submitted(outcome) =>
      if !p.isSubmitting then p
      else if outcome.Ok? then
        p.(isSubmitting := false, toasts := p.toasts + [UpdatedToast], location := Some(Navigate("/product/" + p.id, None)))
      else p.(isSubmitting := false, toasts := p.toasts + [FailureText(outcome, UpdateFallback)])
  }

  /** A loaded product fills every field but the file input, and a stored image is shown as a URL; a failed load goes home. */
  lemma LoadOutcome(p: Page, reply: Reply<Product>)
    requires Valid(p) && p.loading && p.location.None?
    ensures var q := Step(p, Loaded(reply));
      && !q.loading
      && (reply.Ok? ==>
            && q.values == LoadValues(p.values, reply.value)
            && q.values.name == reply.value.name && q.values.description == reply.value.description
            && q.values.price == Some(reply.value.price) && q.values.category == reply.value.category
            && q.values.inStock == reply.value.inStock && q.values.image == p.values.image && q.location.None?
            && (Truthy(reply.value.image) ==> q.existingImage == Some(ResolveImage(reply.value.image.value)))
            && (!Truthy(reply.value.image) ==> q.existingImage == p.existingImage))
      && (reply.Fail? ==> q.location == Some(Navigate("/", None)) && q.toasts == p.toasts + [LoadFailure])
  {
  }

  /** Drag-enter raises `isDragging`, drag-leave and drop lower it, drag-over leaves it; none of them sends anything. */
  lemma DragFlag(p: Page, files: seq<File>)
    requires Valid(p) && p.location.None? && !p.loading
    ensures Step(p, DragEnter).isDragging
    ensures !Step(p, DragLeave).isDragging && !Step(p, Drop(files)).isDragging
    ensures Step(p, DragOver) == p
    ensures Step(p, Drop(files)).requests == p.requests
  {
  }

  /** A refused drop keeps the form's values and shows the message; an accepted one shows the dropped file. */
  lemma DropOnPage(p: Page, files: seq<File>)
    requires Valid(p) && p.location.None? && !p.loading
    ensures var q := Step(p, Drop(files));
      && (DropRefused(files) ==> q.values == p.values && q.toasts == p.toasts + [DropRejected])
      && (files != [] && AcceptsDrop(files[0]) ==>
            DisplayImage(q.preview, q.existingImage) == Some(NewFile(files[0])))
  {
    DropOutcome(p.values, files);
  }

  /** Submission sends the update only for a form without messages, and without a new file the form has no `image` part. */
  lemma SubmitSendsUpdate(p: Page)
    requires Valid(p) && p.location.None? && !p.loading && !p.isSubmitting
    ensures var q := Step(p, Submit);
      && (Acceptable(p.values) ==>
            q.isSubmitting && q.requests == p.requests + [UpdateProduct(p.id, FormOf(p.values))])
      && (!Acceptable(p.values) ==> q == p)
      && (!Chosen(p.values.image) ==> FormOf(p.values) == BaseParts(p.values))
  {
    NoErrorsIffAcceptable(p.values);
  }

  /** However the update ends, `isSubmitting` is cleared; success toasts and goes to the product's page. */
  lemma SubmittedOutcome(p: Page, outcome: Reply<()>)
    requires Valid(p) && p.location.None? && !p.loading && p.isSubmitting
    ensures var q := Step(p, Submitted(outcome));
      && !q.isSubmitting && q.requests == p.requests
      && (outcome.Ok? ==> q.location == Some(Navigate("/product/" + p.id, None)) && q.toasts == p.toasts + [UpdatedToast])
      && (outcome.Fail? ==> q.location.None? && q.toasts == p.toasts + [FailureText(outcome, UpdateFallback)])
  {
  }

  /** The page with its state in fields. */
  class EditProductPage {
    const id: string
    var values: Values
    var existingImage: Option<string>
    var preview: Option<File>
    var isDragging: bool
    var isSubmitting: bool
    var loading: bool
    var toasts: seq<string>
    var location: Option<Navigation>
    var requests: seq<Request>

    function State(): Page
      reads this
    {
      Page(id, values, existingImage, preview, isDragging, isSubmitting, loading, toasts, location, requests)
    }

    /** Mounting runs `fetchProduct`, which asks for the product. */
    constructor (id: string)
      ensures State() == Mount(id)
    {
      this.id := id;
      values := EmptyValues;
      existingImage := None;
      preview := None;
      isDragging := false;
      isSubmitting := false;
      loading := true;
      toasts := [];
      location := None;
      requests := [GetProduct(id)];
    }

    /** The rest of `fetchProduct`. */
    method FetchSettled(reply: Reply<Product>)
      requires Valid(State())
      modifies this
      ensures State() == Step(old(State()), Loaded(reply))
    {
      if location.Some? || !loading {
        return;
      }
      match reply {
        case Ok(data) =>
          values := LoadValues(values, data);
          if data.image.Some? && data.image.value != "" {
            existingImage := Some(ResolveImage(data.image.value));
          }
        case Fail(_) =>
          toasts := toasts + [LoadFailure];
          location := Some(Navigate("/", None));
      }
      loading := false;
    }

    /** An edit of the form, with the preview effect that follows a change of `image`. */
    method Change(v: Values)
      requires Valid(State())
      modifies this
      ensures State() == Step(old(State()), Edit(v))
    {
      if location.Some? || loading {
        return;
      }
      values := v;
      preview := PreviewOf(v.image);
    }

    method HandleDragEnter()
      requires Valid(State())
      modifies this
      ensures State() == Step(old(State()), DragEnter)
    {
      if location.None? && !loading {
        isDragging := true;
      }
    }

    method HandleDragLeave()
      requires Valid(State())
      modifies this
      ensures State() == Step(old(State()), DragLeave)
    {
      if location.None? && !loading {
        isDragging := false;
      }
    }

    method HandleDrop(files: seq<File>)
      requires Valid(State())
      modifies this
      ensures State() == Step(old(State()), Drop(files))
    {
      if location.Some? || loading {
        return;
      }
      isDragging := false;
      if files != [] {
        var file := files[0];
        if StartsWith(file.mimeType, "image/") {
          values := values.(image := Some([file]));
          preview := Some(file);
        } else {
          toasts := toasts + [DropRejected];
        }
      }
    }

    /** `handleSubmit(onSubmit)`: validation, then `setIsSubmitting(true)`, the form and the call. */
    method Submit()
      requires Valid(State())
      modifies this
      ensures State() == Step(old(State()), Event.Submit)
    {
      if location.Some? || loading || isSubmitting || FormErrors(Fields(values)) != [] {
        return;
      }
      var form := AssembleForm(values);
      isSubmitting := true;
      requests := requests + [UpdateProduct(id, form)];
    }

    /** The update settles: the toast, the navigation on success, and the `finally`. */
    method Settled(outcome: Reply<()>)
      requires Valid(State())
      modifies this
      ensures State() == Step(old(State()), Submitted(outcome))
    {
      if location.Some? || !isSubmitting {
        return;
      }
      match outcome {
        case Ok(_) =>
          toasts := toasts + [UpdatedToast];
          location := Some(Navigate("/product/" + id, None));
        case Fail(m) =>
          toasts := toasts + [Or(m, UpdateFallback)];
      }
      isSubmitting := false;
    }
  }
}
