/**
 * The values of the donation-listing service: products, users, uploads and the
 * errors the service raises, together with the read-only parts of the service
 * (the validation chain, the identifier and existence guards, the queries) and
 * the facts that relate them.
 */
module Model {
  import opened Wrappers

  /** A product identifier as a client sends it (an ObjectId in its text form). */
  type Id = string
  /** A user identifier. */
  type UserId = string
  /** A point in time, as the service's clock reports it. */
  type Instant = int

  /** The status code of a validation or business-rule failure. */
  const Unprocessable: int := 422
  /** The status code of a missing product or an empty owner list. */
  const NotFound: int := 404

  /** The acting user as the user lookup resolves it. */
  datatype User = User(id: UserId, name: string, phone: string)

  /** One uploaded image, as the upload middleware describes it. */
  datatype Upload = Upload(filename: string)

  /**
   * The request context: the outcome of resolving the acting user (an
   * authentication failure is carried as the error the lookup raises) and
   * the uploaded files, absent when the request carried none.
   */
  datatype Request = Request(principal: Result<User, Error>, files: Option<seq<Upload>>)

  /** The required fields, named after the message each missing one raises. */
  datatype Field = Name | Description | State | PurchasedAt | Image

  /** What an error is about; the text of each message is not modelled. */
  datatype Reason =
    | Required(field: Field)
    | InvalidId
    | ProductNotFound
    | EmptyList
    | NotAvailable
    | NotOwner

  /** An error raised by the service: a status code and what it is about. */
  datatype Error = Error(code: int, reason: Reason)

  /** A stored product. An empty `purchasedAt` means the field was never written. */
  datatype Product = Product(
    name: string,
    description: string,
    state: string,
    purchasedAt: Option<string>,
    owner: UserId,
    reciever: Option<UserId>,
    available: bool,
    images: seq<string>,
    donatedAt: Option<Instant>)

  /** The confirmation a successful lifecycle transition returns. */
  datatype Confirmation =
    | VisitScheduled(contactName: string, contactPhone: string)
    | DonationConcluded

  /** The fields `create` and `update` validate; an empty string stands for a missing one. */
  datatype Submission = Submission(
    name: string,
    description: string,
    state: string,
    purchasedAt: string,
    images: seq<Upload>)

  /** The uploaded files of a request; a request without files has none. */
  function Uploaded(files: Option<seq<Upload>>): seq<Upload>
  {
    match files
    case None => []
    case Some(fs) => fs
  }

  /** Whether the submission supplies field `f`. */
  predicate Given(s: Submission, f: Field)
  {
    match f
    case Name => s.name != ""
    case Description => s.description != ""
    case State => s.state != ""
    case PurchasedAt => s.purchasedAt != ""
    case Image => |s.images| > 0
  }

  /** The position of a field in the order the service checks them. */
  function Rank(f: Field): nat
  {
    match f
    case Name => 0
    case Description => 1
    case State => 2
    case PurchasedAt => 3
    case Image => 4
  }

  /**
   * The field whose absence the validation chain reports: none when every
   * field is supplied, otherwise the first missing one in checking order.
   */
  function FirstMissing(s: Submission): (r: Option<Field>)
    ensures r.None? <==> forall f :: Given(s, f)
    ensures r.Some? ==> !Given(s, r.value)
    ensures r.Some? ==> forall f :: Rank(f) < Rank(r.value) ==> Given(s, f)
  {
    if !Given(s, Name) then Some(Name)
    else if !Given(s, Description) then Some(Description)
    else if !Given(s, State) then Some(State)
    else if !Given(s, PurchasedAt) then Some(PurchasedAt)
    else if !Given(s, Image) then Some(Image)
    else None
  }

  /** The file names of the uploads, in upload order. */
  function Filenames(files: seq<Upload>): (names: seq<string>)
    ensures |names| == |files|
    ensures forall i :: 0 <= i < |files| ==> names[i] == files[i].filename
  {
    if files == [] then [] else [files[0].filename] + Filenames(files[1..])
  }

  /** Pushes the file name of every upload, in order, onto an image list. */
  method AppendFilenames(images: seq<string>, files: seq<Upload>) returns (r: seq<string>)
    ensures r == images + Filenames(files)
  {
    r := images;
    var i := 0;
    while i < |files|
      invariant 0 <= i <= |files|
      invariant |r| == |images| + i
      invariant r[..|images|] == images
      invariant forall k :: 0 <= k < i ==> r[|images| + k] == files[k].filename
    {
      r := r + [files[i].filename];
      i := i + 1;
    }
  }

  /** Every upload of two consecutive requests is listed, the earlier request first. */
  lemma FilenamesAppend(first: seq<Upload>, second: seq<Upload>)
    ensures Filenames(first + second) == Filenames(first) + Filenames(second)
  {
  }

  /**
   * `show`: a malformed identifier is refused first, then an absent product;
   * otherwise the stored product is returned as it is.
   */
  function Show(products: map<Id, Product>, wellFormed: Id -> bool, id: Id): (r: Result<Product, Error>)
    ensures r.Success? <==> wellFormed(id) && id in products
    ensures r.Success? ==> r.value == products[id]
    ensures !wellFormed(id) ==> r == Failure(Error(Unprocessable, InvalidId))
    ensures wellFormed(id) && id !in products ==> r == Failure(Error(NotFound, ProductNotFound))
  {
    if !wellFormed(id) then Failure(Error(Unprocessable, InvalidId))
    else if id !in products then Failure(Error(NotFound, ProductNotFound))
    else Success(products[id])
  }

  /**
   * The guards `schedule` and `concludeDonation` apply once the acting user is
   * known: the identifier and existence guards of `show`, then availability,
   * then ownership. Every failure but the absent product is a 422.
   * (As written, the ownership guard admits only the owner.)
   */
  function Eligible(products: map<Id, Product>, wellFormed: Id -> bool, user: User, id: Id): (r: Result<Product, Error>)
    ensures r.Success? <==>
      wellFormed(id) && id in products && products[id].available && products[id].owner == user.id
    ensures r.Success? ==> r.value == products[id]
    ensures !(wellFormed(id) && id in products) ==> r == Show(products, wellFormed, id)
    ensures wellFormed(id) && id in products && !products[id].available ==> r == Failure(Error(Unprocessable, NotAvailable))
    ensures wellFormed(id) && id in products && products[id].available && products[id].owner != user.id ==>
      r == Failure(Error(Unprocessable, NotOwner))
  {
    match Show(products, wellFormed, id)
    case Failure(e) => Failure(e)
    case Success(p) =>
      if !p.available then Failure(Error(Unprocessable, NotAvailable))
      else if p.owner != user.id then Failure(Error(Unprocessable, NotOwner))
      else Success(p)
  }

  /** The products owned by user `u`. */
  function OwnedBy(products: map<Id, Product>, u: UserId): map<Id, Product>
  {
    map id | id in products && products[id].owner == u :: products[id]
  }

  /** The products whose pickup user `u` has scheduled. */
  function ReceivedBy(products: map<Id, Product>, u: UserId): map<Id, Product>
  {
    map id | id in products && products[id].reciever == Some(u) :: products[id]
  }

  /**
   * `showUserProducts`: the acting user's own products, entry for entry as
   * stored; a user who owns none gets a 404.
   */
  function ShowUserProducts(products: map<Id, Product>, req: Request): (r: Result<map<Id, Product>, Error>)
    ensures req.principal.Failure? ==> r == Failure(req.principal.error)
    ensures req.principal.Success? && r.Failure? ==> r.error == Error(NotFound, EmptyList)
    ensures req.principal.Success? ==>
      (r.Success? <==> exists id :: id in products && products[id].owner == req.principal.value.id)
    ensures r.Success? ==> forall id :: id in r.value <==> id in products && products[id].owner == req.principal.value.id
    ensures r.Success? ==> forall id :: id in r.value ==> r.value[id] == products[id]
  {
    match req.principal
    case Failure(e) => Failure(e)
    case Success(user) =>
      var owned := OwnedBy(products, user.id);
      if owned == map[] then
        assert forall id :: id in products && products[id].owner == user.id ==> id in owned;
        Failure(Error(NotFound, EmptyList))
      else Success(owned)
  }

  /**
   * `showRecieverProducts`: the products the acting user has scheduled, entry
   * for entry as stored; none gives a 422, unlike the owner list.
   */
  function ShowRecieverProducts(products: map<Id, Product>, req: Request): (r: Result<map<Id, Product>, Error>)
    ensures req.principal.Failure? ==> r == Failure(req.principal.error)
    ensures req.principal.Success? && r.Failure? ==> r.error == Error(Unprocessable, EmptyList)
    ensures req.principal.Success? ==>
      (r.Success? <==> exists id :: id in products && products[id].reciever == Some(req.principal.value.id))
    ensures r.Success? ==>
      forall id :: id in r.value <==> id in products && products[id].reciever == Some(req.principal.value.id)
    ensures r.Success? ==> forall id :: id in r.value ==> r.value[id] == products[id]
  {
    match req.principal
    case Failure(e) => Failure(e)
    case Success(user) =>
      var received := ReceivedBy(products, user.id);
      if received == map[] then
        assert forall id :: id in products && products[id].reciever == Some(user.id) ==> id in received;
        Failure(Error(Unprocessable, EmptyList))
      else Success(received)
  }

  /**
   * What holds of every stored product under the operations as written: the
   * validated text fields are present, there is at least one image, the
   * product is unavailable exactly when its donation date is set, and a
   * scheduled reciever is the owner (the scheduling guard admits only the owner).
   */
  predicate Consistent(p: Product)
  {
    && p.name != ""
    && p.description != ""
    && p.state != ""
    && (p.purchasedAt.Some? ==> p.purchasedAt.value != "")
    && p.images != []
    && (p.available <==> p.donatedAt.None?)
    && (p.reciever.Some? ==> p.reciever.value == p.owner)
  }

  /** Once a donation is concluded, no user can schedule or conclude that product again. */
  lemma ConcludedIsFinal(products: map<Id, Product>, wellFormed: Id -> bool, owner: User, id: Id, now: Instant, anyone: User)
    requires Eligible(products, wellFormed, owner, id).Success?
    ensures Eligible(products[id := products[id].(available := false, donatedAt := Some(now))], wellFormed, anyone, id)
         == Failure(Error(Unprocessable, NotAvailable))
  {
  }

  /** Scheduling a pickup leaves the product open for its owner to conclude. */
  lemma ScheduledStaysConcludable(products: map<Id, Product>, wellFormed: Id -> bool, user: User, id: Id)
    requires Eligible(products, wellFormed, user, id).Success?
    ensures Eligible(products[id := products[id].(reciever := Some(user.id))], wellFormed, user, id)
         == Success(products[id].(reciever := Some(user.id)))
  {
  }

  /**
   * Because only an owner can schedule a pickup, whenever a user's reciever
   * list is non-empty so is their owner list, and it contains the former.
   */
  lemma RecieverListWithinOwnerList(products: map<Id, Product>, req: Request)
    requires forall id | id in products :: Consistent(products[id])
    requires ShowRecieverProducts(products, req).Success?
    ensures ShowUserProducts(products, req).Success?
    ensures ShowRecieverProducts(products, req).value.Keys <= ShowUserProducts(products, req).value.Keys
  {
  }
}
