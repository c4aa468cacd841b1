/**
 * The handlers of src/card/card.controller.ts as methods of the user
 * document whose `cards` list they change in place. `authorize` has already
 * attached the user, so the optional chaining on `req.user` never yields
 * `undefined` and the guards that compare an index with `undefined` never fire.
 */
module CardController {
  import opened Wrappers
  import opened CardTypes
  import opened CardList

  /** `cards.findIndex(card => card._id.toString() === id)`: a left-to-right scan. */
  method FindIndex(cards: seq<Card>, id: CardId) returns (i: int)
    ensures i == FirstIndex(cards, id)
  {
    i := 0;
    while i < |cards|
      invariant 0 <= i <= |cards|
      invariant forall j | 0 <= j < i :: cards[j].id != id
    {
      if cards[i].id == id {
        return;
      }
      i := i + 1;
    }
    i := -1;
  }

  /** `cards.find(...)`: the first card with that id, found by the same scan. */
  method Find(cards: seq<Card>, id: CardId) returns (found: Option<Card>)
    ensures found.None? <==> !HasId(cards, id)
    ensures found.Some? ==> found.value == cards[FirstIndex(cards, id)]
  {
    var i := FindIndex(cards, id);
    found := if i == -1 then None else Some(cards[i]);
  }

  class User {
    /** The user's cards, in creation order. */
    var cards: seq<Card>

    constructor (cards: seq<Card>)
      ensures this.cards == cards
    {
      this.cards := cards;
    }

    /** POST /card: append the body as an Incomplete card under a database-generated id. */
    method CreateCard(body: CreateBody, freshId: CardId) returns (resp: Response)
      modifies this
      ensures Outcome(cards, resp) == CreateOutcome(old(cards), body, freshId)
    {
      var card := NewCard(body, freshId);
      cards := cards + [card];
      resp := Response(201, CreatedCard(cards[|cards| - 1]));
    }

    /** PATCH /card/:cardId: merge the body into the first card with that id. */
    method EditCard(cardId: CardId, edit: EditBody) returns (resp: Response)
      modifies this
      ensures Outcome(cards, resp) == EditOutcome(old(cards), cardId, edit)
    {
      var card := Find(cards, cardId);
      var cardIndex := FindIndex(cards, cardId);
      if card.None? {
        resp := Response(400, Message(INVALID_CARD_ID));
        return;
      }
      var newCard := Merge(card.value, edit);
      cards := cards[cardIndex := newCard];
      resp := Response(200, EditedCard(cards[cardIndex]));
    }

    /**
     * PATCH /card/complete/:cardId. The card `find` returns is the list's own
     * element, so writing its status is written here at the position found.
     */
    method ConfirmCompletedCard(cardId: CardId) returns (resp: Response)
      modifies this
      ensures Outcome(cards, resp) == CompleteOutcome(old(cards), cardId)
    {
      var at := FindIndex(cards, cardId);
      if at == -1 {
        resp := Response(400, Message(INVALID_CARD_ID));
        return;
      }
      if cards[at].status == "" {
        resp := Response(403, Message(ALREADY_COMPLETED));
        return;
      }
      cards := cards[at := cards[at].(status := StatusName(Complete))];
      resp := Response(200, CompletedCard(cards[at]));
    }

    /** DELETE /card/:cardId: `splice(findIndex(...), 1)`, whatever the index. */
    method DeleteCard(cardId: CardId) returns (resp: Response)
      modifies this
      ensures Outcome(cards, resp) == DeleteOutcome(old(cards), cardId)
    {
      var cardIndex := FindIndex(cards, cardId);
      cards := SpliceOne(cards, cardIndex);
      resp := Response(204, NoContent);
    }

    /** GET /card: the whole list, unchanged and in order. */
    method GetAllCards() returns (resp: Response)
      ensures resp.code == 200 && resp.payload.Cards? && resp.payload.cards == cards
    {
      resp := Response(200, Cards(cards));
    }
  }
}
