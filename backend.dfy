/**
 * The REST backend as the pages see it: the records it returns, every
 * request the pages issue, and the outcome of a call. The server itself
 * (and the `productApi`, axios and auth-context wrappers around it) is not
 * part of this model; a call is a request appended to a page's log and a
 * reply that the caller of a model method supplies.
 */
module Backend {
  import opened Platform

  /** A file picked or dropped in the browser: its name and MIME type. */
  datatype File = File(name: string, mimeType: string)

  /** The logged-in user; the pages read both `_id` and `id`. */
  datatype User = User(_id: Option<string>, id: Option<string>)

  /**
   * A product's `createdBy`: absent, an unpopulated id string, or a
   * populated user object with its `_id`.
   */
  datatype Creator = NoCreator | CreatorId(ref: string) | Populated(_id: Option<string>)

  datatype Product = Product(
    _id: string,
    name: string,
    description: string,
    price: real,
    category: string,
    inStock: bool,
    image: Option<string>,
    createdBy: Creator,
    isDeleted: bool)

  /** A value appended to a multipart `FormData`. */
  datatype FormValue = Text(text: string) | Amount(amount: real) | Flag(flag: bool) | Upload(file: File)

  /** One `formData.append(key, value)`; a form is the sequence of them, in order. */
  datatype Part = Part(key: string, value: FormValue)

  /** The keys of the product listing's parameter object. */
  datatype ParamName =
    | PageParam | LimitParam | SortParam | MinPriceParam | MaxPriceParam | InStockParam
    | SearchParam | IsDeletedParam | CategoryParam

  /** The key as it is written in the query string. */
  function KeyOf(k: ParamName): string {
    match k
    case PageParam => "page"
    case LimitParam => "limit"
    case SortParam => "sort"
    case MinPriceParam => "minPrice"
    case MaxPriceParam => "maxPrice"
    case InStockParam => "inStock"
    case SearchParam => "search"
    case IsDeletedParam => "isDeleted"
    case CategoryParam => "category"
  }

  /** A query parameter value of the product listing. */
  datatype Param = Num(n: int) | Str(s: string) | Yes

  datatype Request =
    | GetProducts(params: map<ParamName, Param>)      // GET /products with a params object
    | GetUrl(url: string)                          // GET of a URL written out in full
    | GetProduct(id: string)                       // GET /products/:id
    | CreateProduct(form: seq<Part>)               // POST /products
    | UpdateProduct(id: string, form: seq<Part>)   // PUT /products/:id
    | DeleteProduct(id: string)                    // DELETE /products/:id (to the trash)
    | ForceDeleteProduct(id: string)               // DELETE /products/:id/force
    | RestoreProduct(id: string)                   // PUT /products/:id/restore
    | VerifyOtp(otpEmail: Option<string>, otp: string)
    | ResendOtp(resendEmail: Option<string>)
    | VerifyEmailToken(token: string)              // POST /auth/verify-email
    | ForgotPassword(email: string)
    | RegisterUser(name: string, email: string, password: string)
    | ResetPassword(resetToken: Option<string>, password: string)

  /** The lifecycle actions a page can offer on a product. */
  datatype Action = OfferEdit | OfferTrash | OfferRestore | OfferDeleteForever

  /** How a call settles: with a payload, or with the server's message if it sent one. */
  datatype Reply<+T> = Ok(value: T) | Fail(message: Option<string>)

  /** `err.response?.data?.message || fallback` (or `.error`), as the pages report it. */
  function FailureText<T>(r: Reply<T>, fallback: string): string
    requires r.Fail?
  {
    Or(r.message, fallback)
  }
}
