/** The reviews endpoint. GET lists a product's reviews, newest first. POST
    lets a signed-in user rate a product they have received: it needs a
    product id and a truthy rating, and an order of theirs with status
    DELIVERED holding an item of that product; it then updates the user's
    existing review of the product or creates the first one, so there is at
    most one review per (user, product). */
module ReviewsApi {
  import opened Common
  import opened Db

  const ProductIdRequired: string := "Product ID is required"
  const FieldsRequired: string := "Product ID and rating are required"
  const NotEligible: string := "You can only review products you have ordered and received"

  // ---------------------------------------------------------------------
  // GET

  /** `orderBy: { createdAt: "desc" }`. */
  predicate NewestFirst(a: Review, b: Review) { a.createdAt >= b.createdAt }

  lemma NewestFirstIsTotal()
    ensures TotalPreorder(NewestFirst)
  {
  }

  function OfProduct(productId: Id): Review -> bool
  {
    (rv: Review) => rv.productId == productId
  }

  /** The reviews of one product, newest first; 400 without a product id
      (a missing or empty query parameter). */
  function ListReviews(reviews: seq<Review>, productId: Option<Id>): (r: Reply<seq<Review>>)
    ensures r.Failure? <==> productId.None?
    ensures r.Failure? ==> r == Failure(400, ProductIdRequired)
    ensures r.Success? ==> r.status == 200
    ensures r.Success? ==> multiset(r.value) == multiset(Filter(reviews, OfProduct(productId.value)))
    ensures r.Success? ==> forall rv :: rv in r.value <==> rv in reviews && rv.productId == productId.value
    ensures r.Success? ==> SortedBy(r.value, NewestFirst)
  {
    match productId
    case None => Failure(400, ProductIdRequired)
    case Some(p) =>
      var mine := Filter(reviews, OfProduct(p));
      NewestFirstIsTotal();
      SortBySorted(mine, NewestFirst);
      var sorted := SortBy(mine, NewestFirst);
      assert forall rv :: rv in sorted <==> rv in multiset(mine);
      Success(200, sorted)
  }

  // ---------------------------------------------------------------------
  // POST

  /** The fields of the request body; an absent field is None. */
  datatype ReviewRequest = ReviewRequest(productId: Option<Id>, rating: Option<int>, comment: Option<string>)

  /** `!rating` is false: a rating is given and it is not 0. */
  predicate RatingGiven(rating: Option<int>) { rating.Some? && rating.value != 0 }

  /** `orderItem.findFirst({ where: { productId, order: { userId, status: "DELIVERED" } } })`
      finds a row. */
  predicate HasReceived(orders: seq<Order>, userId: Id, productId: Id)
  {
    exists o :: o in orders && o.userId == userId && o.status == Delivered &&
      exists item :: item in o.items && item.productId == productId
  }

  predicate Reviews(userId: Id, productId: Id, rv: Review)
  {
    rv.userId == userId && rv.productId == productId
  }

  function ByPair(userId: Id, productId: Id): Review -> bool
  {
    (rv: Review) => Reviews(userId, productId, rv)
  }

  /** `review.findUnique({ where: { userId_productId } })`: the position of the
      first review of the pair. */
  function FindReview(reviews: seq<Review>, userId: Id, productId: Id): (r: Option<nat>)
    ensures r.Some? ==> r.value < |reviews| && Reviews(userId, productId, reviews[r.value])
    ensures r.Some? ==> forall i :: 0 <= i < r.value ==> !Reviews(userId, productId, reviews[i])
    ensures r.None? ==> forall i :: 0 <= i < |reviews| ==> !Reviews(userId, productId, reviews[i])
  {
    if reviews == [] then None
    else if Reviews(userId, productId, reviews[0]) then Some(0)
    else match FindReview(reviews[1..], userId, productId)
      case None => None
      case Some(k) => Some(k + 1)
  }

  /** `review.update({ data: { rating, comment } })`: an absent comment is
      `undefined` to Prisma and leaves the stored one. */
  function Revised(rv: Review, req: ReviewRequest): Review
    requires req.rating.Some?
  {
    rv.(rating := req.rating.value, comment := if req.comment.Some? then req.comment else rv.comment)
  }

  /** The reply of a POST and the review table and id counter it leaves. */
  datatype ReviewOutcome = ReviewOutcome(reply: Reply<Review>, reviews: seq<Review>, nextId: Id)

  /** The POST handler on table values. */
  function PostReview(orders: seq<Order>, reviews: seq<Review>, nextId: Id, session: Option<Id>,
                      req: ReviewRequest, now: int): ReviewOutcome
  {
    if session.None? then ReviewOutcome(Failure(401, Unauthorized), reviews, nextId)
    else if req.productId.None? || !RatingGiven(req.rating) then
      ReviewOutcome(Failure(400, FieldsRequired), reviews, nextId)
    else if !HasReceived(orders, session.value, req.productId.value) then
      ReviewOutcome(Failure(400, NotEligible), reviews, nextId)
    else
      match FindReview(reviews, session.value, req.productId.value)
      case Some(k) =>
        var revised := Revised(reviews[k], req);
        ReviewOutcome(Success(200, revised), reviews[k := revised], nextId)
      case None =>
        var created := Review(nextId, session.value, req.productId.value, req.rating.value, req.comment, now);
        ReviewOutcome(Success(201, created), reviews + [created], nextId + 1)
  }

  /** The refusals: 401 without a session user; 400 without a product id or
      with a missing or zero rating; 400 when no delivered order of the user
      holds the product. Each leaves the table as it was, and nothing else
      fails. */
  lemma PostReviewRefusals(orders: seq<Order>, reviews: seq<Review>, nextId: Id, session: Option<Id>,
                           req: ReviewRequest, now: int)
    ensures var o := PostReview(orders, reviews, nextId, session, req, now);
      && (o.reply.Failure? <==> session.None? || req.productId.None? || !RatingGiven(req.rating)
                                || !HasReceived(orders, session.value, req.productId.value))
      && (o.reply.Failure? ==> o.reviews == reviews && o.nextId == nextId)
      && (session.None? ==> o.reply == Failure(401, Unauthorized))
      && (session.Some? && (req.productId.None? || !RatingGiven(req.rating)) ==>
            o.reply == Failure(400, FieldsRequired))
      && (session.Some? && req.productId.Some? && RatingGiven(req.rating)
          && !HasReceived(orders, session.value, req.productId.value) ==>
            o.reply == Failure(400, NotEligible))
  {
  }

  /** An accepted review carries the request's rating and is the only review
      of the (user, product) pair afterwards; it is created (201, one row
      more) exactly when the pair had no review, otherwise the old row is
      revised in place (200); every other review stays where it was. */
  lemma PostReviewUpserts(orders: seq<Order>, reviews: seq<Review>, nextId: Id, session: Option<Id>,
                          req: ReviewRequest, now: int)
    requires ReviewsUnique(reviews)
    requires session.Some? && req.productId.Some? && RatingGiven(req.rating)
    requires HasReceived(orders, session.value, req.productId.value)
    ensures var o := PostReview(orders, reviews, nextId, session, req, now);
      var u, p := session.value, req.productId.value;
      && o.reply.Success? && Reviews(u, p, o.reply.value) && o.reply.value.rating == req.rating.value
      && Filter(o.reviews, ByPair(u, p)) == [o.reply.value]
      && (o.reply.status == 201 <==> Filter(reviews, ByPair(u, p)) == [])
      && (o.reply.status == 201 || o.reply.status == 200)
      && |o.reviews| == |reviews| + (if o.reply.status == 201 then 1 else 0)
      && (forall i :: 0 <= i < |reviews| && !Reviews(u, p, reviews[i]) ==> o.reviews[i] == reviews[i])
  {
    var u, p := session.value, req.productId.value;
    var o := PostReview(orders, reviews, nextId, session, req, now);
    match FindReview(reviews, u, p)
    case Some(k) =>
      assert forall i :: 0 <= i < |reviews| && i != k ==> !Reviews(u, p, reviews[i]);
      FilterSingle(reviews, k, ByPair(u, p));
      FilterSingle(o.reviews, k, ByPair(u, p));
    case None =>
      FilterKeepsNone(reviews, ByPair(u, p));
      FilterAppend(reviews, [o.reply.value], ByPair(u, p));
  }

  /** A POST keeps at most one review per (user, product). */
  lemma PostReviewKeepsUnique(orders: seq<Order>, reviews: seq<Review>, nextId: Id, session: Option<Id>,
                              req: ReviewRequest, now: int)
    requires ReviewsUnique(reviews)
    ensures ReviewsUnique(PostReview(orders, reviews, nextId, session, req, now).reviews)
  {
    var o := PostReview(orders, reviews, nextId, session, req, now);
    if o.reply.Success? {
      var u, p := session.value, req.productId.value;
      match FindReview(reviews, u, p)
      case Some(k) =>
        assert forall i :: 0 <= i < |reviews| && i != k ==> !Reviews(u, p, reviews[i]);
      case None =>
    }
  }

  /** The POST handler on the database. */
  method SubmitReview(db: Database, session: Option<Id>, req: ReviewRequest, now: int) returns (r: Reply<Review>)
    requires db.Valid()
    modifies db`reviews, db`nextId
    ensures db.Valid()
    ensures ReviewOutcome(r, db.reviews, db.nextId) == PostReview(db.orders, old(db.reviews), old(db.nextId), session, req, now)
  {
    if session.None? {
      return Failure(401, Unauthorized);
    }
    if req.productId.None? || !RatingGiven(req.rating) {
      return Failure(400, FieldsRequired);
    }
    var userId, productId := session.value, req.productId.value;
    if !HasReceived(db.orders, userId, productId) {
      return Failure(400, NotEligible);
    }
    PostReviewKeepsUnique(db.orders, db.reviews, db.nextId, session, req, now);
    var existing := FindReview(db.reviews, userId, productId);
    if existing.Some? {
      var revised := Revised(db.reviews[existing.value], req);
      db.reviews := db.reviews[existing.value := revised];
      return Success(200, revised);
    }
    CounterGrows(db.users, db.carts, db.nextId, db.nextId + 1);
    var id := db.NewId();
    var created := Review(id, userId, productId, req.rating.value, req.comment, now);
    db.reviews := db.reviews + [created];
    r := Success(201, created);
  }
}
