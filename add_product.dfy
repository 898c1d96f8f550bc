/**
 * The add product page: a form with defaults, the preview of the chosen
 * image, drag and drop of image files, and a submit that sends the form
 * (with the image only when one was chosen) to `POST /products` and goes
 * home on success.
 */
module AddProduct {
  import opened Platform
  import opened Backend
  import opened FormRules
  import opened ProductFields

  const AddedToast := "Product added successfully!"
  const AddFallback := "Failed to add product. Please try again."

  /** `defaultValues`: empty texts and price, no category, in stock, no file. */
  const Defaults := Values("", "", None, "", true, None)

  /** The untouched form cannot be submitted: each required field reports its own message, in order. */
  lemma DefaultsAreRejected()
    ensures FormErrors(Fields(Defaults)) == [
      FieldMessage("name", "Product name is required"),
      FieldMessage("description", "Description is required"),
      FieldMessage("price", "Price is required"),
      FieldMessage("category", "Category is required")]
  {
    var fs := Fields(Defaults);
    assert FormErrors(fs[3..]) == [FieldMessage("category", "Category is required")];
    assert FormErrors(fs[2..]) == [FieldMessage("price", "Price is required")] + FormErrors(fs[3..]);
    assert FormErrors(fs[1..]) == [FieldMessage("description", "Description is required")] + FormErrors(fs[2..]);
  }

  datatype Page = Page(
    values: Values,
    preview: Option<File>,
    isDragging: bool,
    isSubmitting: bool,
    alerts: seq<string>,
    toasts: seq<string>,
    location: Option<Navigation>,
    requests: seq<Request>)

  /** The preview always follows the chosen file. */
  predicate Valid(p: Page) {
    p.preview == PreviewOf(p.values.image)
  }

  function Mount(): (p: Page)
    ensures Valid(p) && p.values == Defaults && p.preview.None? && !p.isSubmitting && p.requests == []
  {
    Page(Defaults, None, false, false, [], [], None, [])
  }

  datatype Event =
    | Edit(values: Values)
    | DragEnter
    | DragLeave
    | DragOver
    | Drop(files: seq<File>)
    | Submit
    | Submitted(outcome: Reply<()>)

  function Step(p: Page, e: Event): (q: Page)
    requires Valid(p)
    ensures Valid(q)
  {
    if p.location.Some? then p
    else match e
    case Edit(v) => p.(values := v, preview := PreviewOf(v.image))
    case DragEnter => p.(isDragging := true)
    case DragLeave => p.(isDragging := false)
    case DragOver => p
    case Drop(files) =>
      var v := AfterDrop(p.values, files);
      p.(isDragging := false, values := v, preview := PreviewOf(v.image),
         alerts := if DropRefused(files) then p.alerts + [DropRejected] else p.alerts)
    case Submit =>
      if p.isSubmitting || FormErrors(Fields(p.values)) != [] then p
      else p.(isSubmitting := true, requests := p.requests + [CreateProduct(FormOf(p.values))])
    case Submitted(outcome) =>
      if !p.isSubmitting then p
      else if outcome.Ok? then
        p.(isSubmitting := false, toasts := p.toasts + [AddedToast], location := Some(Navigate("/", None)))
      else p.(isSubmitting := false, toasts := p.toasts + [FailureText(outcome, AddFallback)])
  }

  /** The preview is cleared whenever no file is chosen, and shows the chosen file otherwise. */
  lemma PreviewFollowsFile(p: Page, v: Values)
    requires Valid(p) && p.location.None?
    ensures !Chosen(v.image) ==> Step(p, Edit(v)).preview.None?
    ensures Chosen(v.image) ==> Step(p, Edit(v)).preview == Some(v.image.value[0])
  {
  }

  /** A refused drop leaves the form as it was and alerts; drop and drag-leave lower `isDragging`. */
  lemma DropOnPage(p: Page, files: seq<File>)
    requires Valid(p) && p.location.None?
    ensures var q := Step(p, Drop(files));
      && !q.isDragging && q.requests == p.requests
      && (DropRefused(files) ==> q.values == p.values && q.alerts == p.alerts + [DropRejected])
      && (files != [] && AcceptsDrop(files[0]) ==> q.preview == Some(files[0]) && q.alerts == p.alerts)
    ensures Step(p, DragEnter).isDragging && !Step(p, DragLeave).isDragging
  {
    DropOutcome(p.values, files);
  }

  /** A valid form is sent to the create endpoint, with the image part only when a file was chosen; an invalid one is not sent. */
  lemma SubmitCreates(p: Page)
    requires Valid(p) && p.location.None? && !p.isSubmitting
    ensures var q := Step(p, Submit);
      && (Acceptable(p.values) ==>
            q.isSubmitting && q.requests == p.requests + [CreateProduct(FormOf(p.values))])
      && (!Acceptable(p.values) ==> q == p)
  {
    NoErrorsIffAcceptable(p.values);
  }

  /** However the call ends, `isSubmitting` is cleared; success goes home, failure reports the server's message or the fallback. */
  lemma SubmittedOutcome(p: Page, outcome: Reply<()>)
    requires Valid(p) && p.location.None? && p.isSubmitting
    ensures var q := Step(p, Submitted(outcome));
      && !q.isSubmitting && q.requests == p.requests
      && (outcome.Ok? ==> q.location == Some(Navigate("/", None)) && q.toasts == p.toasts + [AddedToast])
      && (outcome.Fail? ==> q.location.None? && q.toasts == p.toasts + [FailureText(outcome, AddFallback)])
  {
  }

  /** The page with its state in fields. */
  class AddProductPage {
    var values: Values
    var preview: Option<File>
    var isDragging: bool
    var isSubmitting: bool
    var alerts: seq<string>
    var toasts: seq<string>
    var location: Option<Navigation>
    var requests: seq<Request>

    function State(): Page
      reads this
    {
      Page(values, preview, isDragging, isSubmitting, alerts, toasts, location, requests)
    }

    constructor ()
      ensures State() == Mount()
    {
      values := Defaults;
      preview := None;
      isDragging := false;
      isSubmitting := false;
      alerts := [];
      toasts := [];
      location := None;
      requests := [];
    }

    /** An edit of the form, with the preview effect that follows a change of `image`. */
    method Change(v: Values)
      requires Valid(State())
      modifies this
      ensures State() == Step(old(State()), Edit(v))
    {
      if location.Some? {
        return;
      }
      values := v;
      preview := PreviewOf(v.image);
    }

    method HandleDragEnter()
      requires Valid(State())
      modifies this
      ensures State() == Step(old(State()), DragEnter)
    {
      if location.None? {
        isDragging := true;
      }
    }

    method HandleDragLeave()
      requires Valid(State())
      modifies this
      ensures State() == Step(old(State()), DragLeave)
    {
      if location.None? {
        isDragging := false;
      }
    }

    method HandleDrop(files: seq<File>)
      requires Valid(State())
      modifies this
      ensures State() == Step(old(State()), Drop(files))
    {
      if location.Some? {
        return;
      }
      isDragging := false;
      if files != [] {
        var file := files[0];
        if StartsWith(file.mimeType, "image/") {
          values := values.(image := Some([file]));
          preview := Some(file);
        } else {
          alerts := alerts + [DropRejected];
        }
      }
    }

    /** `handleSubmit(onSubmit)`: validation, then `setIsSubmitting(true)`, the form and the call. */
    method Submit()
      requires Valid(State())
      modifies this
      ensures State() == Step(old(State()), Event.Submit)
    {
      if location.Some? || isSubmitting || FormErrors(Fields(values)) != [] {
        return;
      }
      var form := AssembleForm(values);
      isSubmitting := true;
      requests := requests + [CreateProduct(form)];
    }

    /** The call settles: the toast, the navigation on success, and the `finally`. */
    method Settled(outcome: Reply<()>)
      requires Valid(State())
      modifies this
      ensures State() == Step(old(State()), Submitted(outcome))
    {
      if location.Some? || !isSubmitting {
        return;
      }
      match outcome {
        case Ok(_) =>
          toasts := toasts + [AddedToast];
          location := Some(Navigate("/", None));
        case Fail(m) =>
          toasts := toasts + [Or(m, AddFallback)];
      }
      isSubmitting := false;
    }
  }
}
