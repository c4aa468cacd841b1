/**
 * The card routes of src/card/card.router.ts: each route is a fixed chain
 * of stages (authorization, then the `cardId` parameter, then the body,
 * then the handler) and the first stage that fails writes the reply.
 */
module CardRouter {
  import opened Wrappers
  import opened CardTypes
  import opened CardList
  import opened CardSchemas
  import opened CardController

  /** An incoming request on one of the five routes, with its path parameter and body. */
  datatype Route =
    | PostCard(body: Body)
    | PatchCard(cardId: string, body: Body)
    | PatchComplete(cardId: string)
    | DeleteCardRoute(cardId: string)
    | GetCards

  /**
   * What `authorize` decided; its token and session checks are not part of
   * this model, only that it either lets the request through or replies.
   */
  datatype Auth = Authorized | Denied(response: Response)

  /** The handler call a request reaches, with its validated arguments. */
  datatype Action =
    | DoCreate(body: CreateBody)
    | DoEdit(id: CardId, edit: EditBody)
    | DoComplete(id: CardId)
    | DoDelete(id: CardId)
    | DoList

  datatype Verdict = Reject(response: Response) | Proceed(action: Action)

  /** The reply of the validation middleware: 400 with the problem's text. */
  function BadRequest(e: Issue): (r: Response)
    ensures r.code == 400 && r.payload.Message? && NamesKey(e, r.payload.text)
  {
    Response(400, Message(Describe(e)))
  }

  /** Reference reading of "every validation stage of this route passes". */
  ghost predicate RouteValid(route: Route, isObjectId: string -> bool)
  {
    match route
    case PostCard(body) => CreateAccepts(body)
    case PatchCard(id, body) => id != "" && isObjectId(id) && EditAccepts(body)
    case PatchComplete(id) => id != "" && isObjectId(id)
    case DeleteCardRoute(id) => id != "" && isObjectId(id)
    case GetCards => true
  }

  /**
   * The middleware chain of each route up to its handler. Authorization
   * decides first; then the path parameter; then the body; a request
   * reaches its handler only when every stage passed.
   */
  function Gate(route: Route, auth: Auth, isObjectId: string -> bool): (v: Verdict)
    ensures auth.Denied? ==> v == Reject(auth.response)
    ensures v.Proceed? <==> auth.Authorized? && RouteValid(route, isObjectId)
    ensures auth.Authorized? && v.Reject? ==> v.response.code == 400
    ensures auth.Authorized? && !route.PostCard? && !route.GetCards? && CheckCardId(route.cardId, isObjectId).Failure?
      ==> v == Reject(BadRequest(CheckCardId(route.cardId, isObjectId).error))
    ensures auth.Authorized? && route.PostCard? && ValidateCreate(route.body).Failure?
      ==> v == Reject(BadRequest(ValidateCreate(route.body).error))
    ensures auth.Authorized? && route.PatchCard? && CheckCardId(route.cardId, isObjectId).Success?
      && ValidateEdit(route.body).Failure?
      ==> v == Reject(BadRequest(ValidateEdit(route.body).error))
    ensures v.Proceed? ==> match route
      case PostCard(body) => v.action == DoCreate(ValidateCreate(body).value)
      case PatchCard(id, body) => v.action == DoEdit(id, ValidateEdit(body).value)
      case PatchComplete(id) => v.action == DoComplete(id)
      case DeleteCardRoute(id) => v.action == DoDelete(id)
      case GetCards => v.action == DoList
  {
    if auth.Denied? then Reject(auth.response)
    else
      match route
      case PostCard(body) =>
        (match ValidateCreate(body)
         case Failure(e) => Reject(BadRequest(e))
         case Success(b) => Proceed(DoCreate(b)))
      case PatchCard(cardId, body) =>
        (match CheckCardId(cardId, isObjectId)
         case Failure(e) => Reject(BadRequest(e))
         case Success(id) =>
           match ValidateEdit(body)
           case Failure(e) => Reject(BadRequest(e))
           case Success(edit) => Proceed(DoEdit(id, edit)))
      case PatchComplete(cardId) =>
        (match CheckCardId(cardId, isObjectId)
         case Failure(e) => Reject(BadRequest(e))
         case Success(id) => Proceed(DoComplete(id)))
      case DeleteCardRoute(cardId) =>
        (match CheckCardId(cardId, isObjectId)
         case Failure(e) => Reject(BadRequest(e))
         case Success(id) => Proceed(DoDelete(id)))
      case GetCards => Proceed(DoList)
  }

  /** What the handler an action names does to the list, and its reply. */
  function Apply(cards: seq<Card>, action: Action, freshId: CardId): (r: Outcome)
    ensures action.DoCreate? ==> IdsOf(r.cards) == IdsOf(cards) + [freshId]
    ensures action.DoEdit? || action.DoComplete? || action.DoList? ==> IdsOf(r.cards) == IdsOf(cards)
    ensures action.DoDelete? ==> |r.cards| == if |cards| == 0 then 0 else |cards| - 1
    ensures action.DoList? ==> r.response.code == 200
  {
    match action
    case DoCreate(body) => CreateOutcome(cards, body, freshId)
    case DoEdit(id, edit) => EditOutcome(cards, id, edit)
    case DoComplete(id) => CompleteOutcome(cards, id)
    case DoDelete(id) => DeleteOutcome(cards, id)
    case DoList => Outcome(cards, Response(200, Cards(cards)))
  }

  /** Runs the handler an action names, on the user's list. */
  method RunHandler(user: User, action: Action, freshId: CardId) returns (resp: Response)
    modifies user
    ensures Outcome(user.cards, resp) == Apply(old(user.cards), action, freshId)
  {
    match action
    case DoCreate(body) =>
      resp := user.CreateCard(body, freshId);
    case DoEdit(id, edit) =>
      resp := user.EditCard(id, edit);
    case DoComplete(id) =>
      resp := user.ConfirmCompletedCard(id);
    case DoDelete(id) =>
      resp := user.DeleteCard(id);
    case DoList =>
      resp := user.GetAllCards();
  }

  /**
   * Serves one request for the user `authorize` attached: a rejected
   * request leaves the cards alone, an accepted one runs its handler.
   * `freshId` is the id the database would give a new card.
   */
  method Serve(user: User, route: Route, auth: Auth, isObjectId: string -> bool, freshId: CardId)
    returns (resp: Response)
    modifies user
    ensures Gate(route, auth, isObjectId).Reject? ==>
      resp == Gate(route, auth, isObjectId).response && user.cards == old(user.cards)
    ensures Gate(route, auth, isObjectId).Proceed? ==>
      Outcome(user.cards, resp) == Apply(old(user.cards), Gate(route, auth, isObjectId).action, freshId)
  {
    var verdict := Gate(route, auth, isObjectId);
    match verdict
    case Reject(r) =>
      resp := r;
    case Proceed(action) =>
      resp := RunHandler(user, action, freshId);
  }

  /**
   * Every request keeps a user's list well formed (unique ids, known
   * statuses), provided a new card gets an id not already in the list.
   */
  lemma RequestsPreserveWellFormed(cards: seq<Card>, action: Action, freshId: CardId)
    requires WellFormed(cards) && !HasId(cards, freshId)
    ensures WellFormed(Apply(cards, action, freshId).cards)
  {
    if action.DoDelete? {
      DeletePreservesWellFormed(cards, action.id);
    }
  }
}
