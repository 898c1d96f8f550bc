/**
 * What the add and edit product pages share: the form's values and the
 * rules registered on its fields, the category choices, the image preview,
 * the drop handler that only takes image files, and the `FormData` that
 * `onSubmit` assembles, where the image is appended only when a file was
 * chosen. The two pages repeat this code line for line; it is modelled
 * once here.
 */
module ProductFields {
  import opened Platform
  import opened Backend
  import opened FormRules

  const NameRules := Rules(Some("Product name is required"), None,
                           Some(Length(3, "Name must be at least 3 characters")), None, None)
  const DescriptionRules := Rules(Some("Description is required"), None,
                                  Some(Length(10, "Description must be at least 10 characters")), None, None)
  const PriceRules := Rules(Some("Price is required"), Some(Bound(0.0, "Price must be 0 or greater")),
                            None, None, None)
  const CategoryRules := Rules(Some("Category is required"), None, None, None, None)

  /** The values of the category `<select>`: the empty "Select category" option, then the seven categories. */
  const Categories := ["electronics", "fashion", "books", "home", "sports", "toys", "other"]

  predicate IsOption(v: string) {
    v == "" || v in Categories
  }

  const DropRejected := "Please drop an image file (PNG, JPG, WEBP)"

  /** The form's values; `image` is the file input's `FileList`, undefined until the input or a drop sets it. */
  datatype Values = Values(
    name: string,
    description: string,
    price: Option<real>,  // `valueAsNumber`: none for an empty input
    category: string,
    inStock: bool,
    image: Option<seq<File>>)

  /** The registered fields, in the order of the form. */
  function Fields(v: Values): seq<Field> {
    [ Field("name", NameRules, TextInput(v.name)),
      Field("description", DescriptionRules, TextInput(v.description)),
      Field("price", PriceRules, NumberInput(v.price)),
      Field("category", CategoryRules, TextInput(v.category)) ]
  }

  /** What the rules demand, stated field by field. */
  predicate Acceptable(v: Values) {
    && |v.name| >= 3
    && |v.description| >= 10
    && v.price.Some? && v.price.value >= 0.0
    && v.category != ""
  }

  /** The form shows no message exactly when every field meets its bounds. */
  lemma NoErrorsIffAcceptable(v: Values)
    ensures FormErrors(Fields(v)) == [] <==> Acceptable(v)
  {
    var fs := Fields(v);
    assert forall i :: 0 <= i < |fs| ==> Satisfies(fs[i].rules, fs[i].input) <==>
      (i == 0 ==> |v.name| >= 3) && (i == 1 ==> |v.description| >= 10) &&
      (i == 2 ==> v.price.Some? && v.price.value >= 0.0) && (i == 3 ==> v.category != "");
  }

  /** With only the select's options to choose from, the category is accepted exactly when it is one of the seven. */
  lemma CategoryFromSelect(v: Values)
    requires IsOption(v.category)
    ensures Satisfies(CategoryRules, TextInput(v.category)) <==> v.category in Categories
  {
  }

  /** `data.image && data.image[0]`: a file was chosen. */
  predicate Chosen(image: Option<seq<File>>) {
    image.Some? && |image.value| > 0
  }

  /** The preview effect: the chosen file's data URL, or none once no file is chosen. */
  function PreviewOf(image: Option<seq<File>>): (r: Option<File>)
    ensures r.Some? <==> Chosen(image)
    ensures r.Some? ==> r.value == image.value[0]
  {
    if Chosen(image) then Some(image.value[0]) else None
  }

  /** `file.type.startsWith('image/')`. */
  predicate AcceptsDrop(f: File) {
    StartsWith(f.mimeType, "image/")
  }

  /** `handleDrop` on the form's values: the first dropped file, if it is an image, becomes the only file of `image`. */
  function AfterDrop(v: Values, dropped: seq<File>): Values {
    if dropped != [] && AcceptsDrop(dropped[0]) then v.(image := Some([dropped[0]])) else v
  }

  /** The drop is refused, with a message, when its first file is not an image. */
  predicate DropRefused(dropped: seq<File>) {
    dropped != [] && !AcceptsDrop(dropped[0])
  }

  /** A drop touches nothing but `image`; an accepted one makes its first file the chosen one, anything else leaves the values as they were. */
  lemma DropOutcome(v: Values, dropped: seq<File>)
    ensures var r := AfterDrop(v, dropped);
      && r.(image := v.image) == v
      && (dropped != [] && AcceptsDrop(dropped[0]) ==> Chosen(r.image) && PreviewOf(r.image) == Some(dropped[0]))
      && (dropped == [] || DropRefused(dropped) ==> r == v)
  {
  }

  /** `formData.append('price', data.price)`: the number, or `NaN` for an empty input. */
  function PriceValue(price: Option<real>): FormValue {
    if price.Some? then Amount(price.value) else Text("NaN")
  }

  /** The five parts every submission carries. */
  function BaseParts(v: Values): seq<Part> {
    [ Part("name", Text(v.name)),
      Part("description", Text(v.description)),
      Part("price", PriceValue(v.price)),
      Part("category", Text(v.category)),
      Part("inStock", Flag(v.inStock)) ]
  }

  /** The `FormData` of `onSubmit`: the five fields, and the chosen file after them. */
  function FormOf(v: Values): seq<Part> {
    BaseParts(v) + (if Chosen(v.image) then [Part("image", Upload(v.image.value[0]))] else [])
  }

  function Keys(parts: seq<Part>): (keys: seq<string>)
    ensures |keys| == |parts| && forall i :: 0 <= i < |parts| ==> keys[i] == parts[i].key
  {
    seq(|parts|, i requires 0 <= i < |parts| => parts[i].key)
  }

  /**
   * The form always carries the five fields, in order and with the values as
   * they were entered, and carries an `image` part exactly when a file was
   * chosen: the chosen file. Without one the server keeps the stored image.
   */
  lemma FormParts(v: Values)
    ensures Keys(FormOf(v)) ==
              ["name", "description", "price", "category", "inStock"] + (if Chosen(v.image) then ["image"] else [])
    ensures FormOf(v)[..5] == BaseParts(v)
    ensures (exists i :: 0 <= i < |FormOf(v)| && FormOf(v)[i].key == "image") <==> Chosen(v.image)
    ensures Chosen(v.image) ==> FormOf(v)[5] == Part("image", Upload(v.image.value[0]))
  {
    var f := FormOf(v);
    if Chosen(v.image) {
      assert f[5].key == "image";
    } else {
      assert forall i :: 0 <= i < |f| ==> f[i].key != "image";
    }
  }

  /** A dropped image is the file the next submission uploads. */
  lemma DroppedImageIsUploaded(v: Values, f: File, rest: seq<File>)
    requires AcceptsDrop(f)
    ensures FormOf(AfterDrop(v, [f] + rest)) == BaseParts(v) + [Part("image", Upload(f))]
  {
  }

  /** `onSubmit`'s appends, one after another. */
  method AssembleForm(v: Values) returns (form: seq<Part>)
    ensures form == FormOf(v)
  {
    form := [];
    form := form + [Part("name", Text(v.name))];
    form := form + [Part("description", Text(v.description))];
    form := form + [Part("price", PriceValue(v.price))];
    form := form + [Part("category", Text(v.category))];
    form := form + [Part("inStock", Flag(v.inStock))];
    if v.image.Some? && |v.image.value| > 0 {
      form := form + [Part("image", Upload(v.image.value[0]))];
    }
  }
}
