/**
 * The operations of the donation-listing service that change the product
 * table: creating, updating and deleting products, scheduling a pickup and
 * concluding a donation. The read-only operations are the functions of
 * module Model, applied to `products`.
 */
module Service {
  import opened Wrappers
  import opened Model

  class ProductService {
    /** Which identifiers are well formed (the document store's identifier format). */
    const wellFormed: Id -> bool
    /** The product collection, by identifier. */
    var products: map<Id, Product>

    /** Every stored product sits under a well-formed identifier and is consistent. */
    ghost predicate Valid()
      reads this
    {
      forall id | id in products :: wellFormed(id) && Consistent(products[id])
    }

    constructor (wellFormed: Id -> bool)
      ensures this.wellFormed == wellFormed
      ensures products == map[]
      ensures Valid()
    {
      this.wellFormed := wellFormed;
      products := map[];
    }

    /**
     * `create`: resolves the acting user, validates the submission in order,
     * then stores a new available product owned by that user under `newId`,
     * the identifier the store assigns. `purchasedAt` is validated but not
     * stored.
     */
    method Create(req: Request, name: string, description: string, state: string, purchasedAt: string, newId: Id)
      returns (r: Result<Product, Error>)
      requires Valid()
      requires wellFormed(newId) && newId !in products
      modifies this
      ensures Valid()
      ensures req.principal.Failure? ==> r == Failure(req.principal.error) && products == old(products)
      ensures req.principal.Success? ==>
        match FirstMissing(Submission(name, description, state, purchasedAt, Uploaded(req.files)))
        case Some(f) => r == Failure(Error(Unprocessable, Required(f))) && products == old(products)
        case None =>
          && r == Success(Product(name, description, state, None, req.principal.value.id, None, true,
                                  Filenames(Uploaded(req.files)), None))
          && products == old(products)[newId := r.value]
    {
      if req.principal.Failure? {
        return Failure(req.principal.error);
      }
      var user := req.principal.value;
      var images := Uploaded(req.files);
      var missing := FirstMissing(Submission(name, description, state, purchasedAt, images));
      if missing.Some? {
        return Failure(Error(Unprocessable, Required(missing.value)));
      }
      var product := Product(name, description, state, None, user.id, None, true, [], None);
      var filenames := AppendFilenames(product.images, images);
      assert filenames == Filenames(images);
      product := product.(images := filenames);
      products := products[newId := product];
      r := Success(product);
    }

    /**
     * `update`: refuses a malformed identifier before anything else, then
     * resolves the acting user, validates the submission like `create`, and
     * only then looks the product up. Any authenticated user may update any
     * product. Name, description and purchase date are replaced, the new
     * image names are appended; `state` is validated but not stored.
     */
    method Update(req: Request, id: Id, name: string, description: string, state: string, purchasedAt: string)
      returns (r: Result<Product, Error>)
      requires Valid()
      modifies this
      ensures Valid()
      ensures !wellFormed(id) ==> r == Failure(Error(Unprocessable, InvalidId)) && products == old(products)
      ensures wellFormed(id) && req.principal.Failure? ==>
        r == Failure(req.principal.error) && products == old(products)
      ensures wellFormed(id) && req.principal.Success? ==>
        match FirstMissing(Submission(name, description, state, purchasedAt, Uploaded(req.files)))
        case Some(f) => r == Failure(Error(Unprocessable, Required(f))) && products == old(products)
        case None =>
          if id !in old(products) then
            r == Failure(Error(NotFound, ProductNotFound)) && products == old(products)
          else
            && r == Success(old(products)[id].(name := name, description := description,
                                               purchasedAt := Some(purchasedAt),
                                               images := old(products)[id].images + Filenames(Uploaded(req.files))))
            && products == old(products)[id := r.value]
    {
      if !wellFormed(id) {
        return Failure(Error(Unprocessable, InvalidId));
      }
      if req.principal.Failure? {
        return Failure(req.principal.error);
      }
      var images := Uploaded(req.files);
      var missing := FirstMissing(Submission(name, description, state, purchasedAt, images));
      if missing.Some? {
        return Failure(Error(Unprocessable, Required(missing.value)));
      }
      if id !in products {
        return Failure(Error(NotFound, ProductNotFound));
      }
      var product := products[id];
      product := product.(name := name, description := description, purchasedAt := Some(purchasedAt));
      var filenames := AppendFilenames(product.images, images);
      product := product.(images := filenames);
      products := products[id := product];
      r := Success(product);
    }

    /** `delete`: the guards of `show`, then the product is removed and nothing else. */
    method Delete(id: Id) returns (r: Result<(), Error>)
      requires Valid()
      modifies this
      ensures Valid()
      ensures match Show(old(products), wellFormed, id)
        case Failure(e) => r == Failure(e) && products == old(products)
        case Success(_) => r == Success(()) && products == old(products) - {id}
    {
      var found := Show(products, wellFormed, id);
      if found.Failure? {
        return Failure(found.error);
      }
      products := products - {id};
      r := Success(());
    }

    /**
     * `schedule`: resolves the acting user, applies the lifecycle guards and
     * records that user as the product's reciever; the confirmation names
     * the acting user's contact details.
     */
    method Schedule(req: Request, id: Id) returns (r: Result<Confirmation, Error>)
      requires Valid()
      modifies this
      ensures Valid()
      ensures req.principal.Failure? ==> r == Failure(req.principal.error) && products == old(products)
      ensures req.principal.Success? ==>
        match Eligible(old(products), wellFormed, req.principal.value, id)
        case Failure(e) => r == Failure(e) && products == old(products)
        case Success(p) =>
          && r == Success(VisitScheduled(req.principal.value.name, req.principal.value.phone))
          && products == old(products)[id := p.(reciever := Some(req.principal.value.id))]
    {
      if req.principal.Failure? {
        return Failure(req.principal.error);
      }
      var user := req.principal.value;
      var found := Eligible(products, wellFormed, user, id);
      if found.Failure? {
        return Failure(found.error);
      }
      products := products[id := found.value.(reciever := Some(user.id))];
      r := Success(VisitScheduled(user.name, user.phone));
    }

    /**
     * `concludeDonation`: resolves the acting user, applies the lifecycle
     * guards, then marks the product unavailable and donated at `now`.
     */
    method ConcludeDonation(req: Request, id: Id, now: Instant) returns (r: Result<Confirmation, Error>)
      requires Valid()
      modifies this
      ensures Valid()
      ensures req.principal.Failure? ==> r == Failure(req.principal.error) && products == old(products)
      ensures req.principal.Success? ==>
        match Eligible(old(products), wellFormed, req.principal.value, id)
        case Failure(e) => r == Failure(e) && products == old(products)
        case Success(p) =>
          && r == Success(DonationConcluded)
          && products == old(products)[id := p.(available := false, donatedAt := Some(now))]
    {
      if req.principal.Failure? {
        return Failure(req.principal.error);
      }
      var found := Eligible(products, wellFormed, req.principal.value, id);
      if found.Failure? {
        return Failure(found.error);
      }
      products := products[id := found.value.(available := false, donatedAt := Some(now))];
      r := Success(DonationConcluded);
    }
  }
}
