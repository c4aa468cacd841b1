/**
 * What each card handler of src/card/card.controller.ts does to a user's
 * ordered list of cards, as a function from the old list to the new list
 * and the reply. The imperative handlers in CardController are proved
 * equal to these; the properties the handlers promise are stated here.
 */
module CardList {
  import opened Wrappers
  import opened CardTypes

  const INVALID_CARD_ID: string := "Invalid 'cardId'"
  const ALREADY_COMPLETED: string := "This card is already completed"

  /** The list after a handler ran, and what the handler replied. */
  datatype Outcome = Outcome(cards: seq<Card>, response: Response)

  function IdsOf(cards: seq<Card>): (ids: seq<CardId>)
    ensures |ids| == |cards|
    ensures forall j | 0 <= j < |cards| :: ids[j] == cards[j].id
  {
    seq(|cards|, j requires 0 <= j < |cards| => cards[j].id)
  }

  predicate HasId(cards: seq<Card>, id: CardId)
  {
    exists j | 0 <= j < |cards| :: cards[j].id == id
  }

  /** Card ids are unique within a user's list (the database generates them). */
  predicate UniqueIds(cards: seq<Card>)
  {
    forall i, j | 0 <= i < j < |cards| :: cards[i].id != cards[j].id
  }

  /** Every stored status is one of the two names the handlers ever write. */
  predicate KnownStatuses(cards: seq<Card>)
  {
    forall j | 0 <= j < |cards| :: cards[j].status in {StatusName(Incomplete), StatusName(Complete)}
  }

  predicate WellFormed(cards: seq<Card>)
  {
    UniqueIds(cards) && KnownStatuses(cards)
  }

  /**
   * Position of the first card whose id is `id`, or -1 when there is none:
   * the reading of `findIndex` with an id comparison.
   */
  function FirstIndex(cards: seq<Card>, id: CardId): (r: int)
    ensures -1 <= r < |cards|
    ensures r == -1 <==> !HasId(cards, id)
    ensures 0 <= r ==> cards[r].id == id && forall j | 0 <= j < r :: cards[j].id != id
  {
    if |cards| == 0 then -1
    else if cards[0].id == id then 0
    else
      var r := FirstIndex(cards[1..], id);
      if r == -1 then -1 else r + 1
  }

  /** The first match depends on the ids alone. */
  lemma {:induction false} FirstIndexByIds(a: seq<Card>, b: seq<Card>, id: CardId)
    requires IdsOf(a) == IdsOf(b)
    ensures FirstIndex(a, id) == FirstIndex(b, id)
  {
    if |a| > 0 {
      assert a[0].id == IdsOf(a)[0] == IdsOf(b)[0] == b[0].id;
      assert IdsOf(a[1..]) == IdsOf(a)[1..];
      assert IdsOf(b[1..]) == IdsOf(b)[1..];
      FirstIndexByIds(a[1..], b[1..], id);
    }
  }

  /**
   * `{ ...req.body, status: INCOMPLETE }` stored under a freshly generated id:
   * the status written after the body wins.
   */
  function NewCard(body: CreateBody, id: CardId): (c: Card)
    ensures Fields(c) == body
    ensures c.id == id && c.status == StatusName(Incomplete)
  {
    Card(id, body.title, body.date, body.time, body.cardType, body.category, body.difficulty,
         StatusName(Incomplete))
  }

  /** createCard: push the new card, reply 201 with the last card of the list. */
  function CreateOutcome(cards: seq<Card>, body: CreateBody, id: CardId): (r: Outcome)
    ensures |r.cards| == |cards| + 1 && r.cards[..|cards|] == cards
    ensures Fields(r.cards[|cards|]) == body
    ensures r.cards[|cards|].status == StatusName(Incomplete) && r.cards[|cards|].id == id
    ensures IdsOf(r.cards) == IdsOf(cards) + [id]
    ensures r.response == Response(201, CreatedCard(r.cards[|cards|]))
    ensures WellFormed(cards) && !HasId(cards, id) ==> WellFormed(r.cards)
  {
    var cards' := cards + [NewCard(body, id)];
    assert IdsOf(cards') == IdsOf(cards) + [id];
    Outcome(cards', Response(201, CreatedCard(cards'[|cards'| - 1])))
  }

  /** True when `now` is the value given in the edit body, or `was` when none was given. */
  predicate Overrides<T(==)>(now: T, was: T, given: Option<T>)
  {
    match given
    case Some(v) => now == v
    case None => now == was
  }

  /**
   * `{ ...card.toObject(), ...req.body }`: fields present in the body win,
   * the others, the id and the status keep their stored values.
   */
  function Merge(card: Card, edit: EditBody): (r: Card)
    ensures r.id == card.id && r.status == card.status
    ensures Overrides(r.title, card.title, edit.title)
    ensures Overrides(r.date, card.date, edit.date)
    ensures Overrides(r.time, card.time, edit.time)
    ensures Overrides(r.cardType, card.cardType, edit.cardType)
    ensures Overrides(r.category, card.category, edit.category)
    ensures Overrides(r.difficulty, card.difficulty, edit.difficulty)
  {
    Card(card.id,
         edit.title.GetOr(card.title),
         edit.date.GetOr(card.date),
         edit.time.GetOr(card.time),
         edit.cardType.GetOr(card.cardType),
         edit.category.GetOr(card.category),
         edit.difficulty.GetOr(card.difficulty),
         card.status)
  }

  /**
   * editCard: an unknown id leaves the list alone and replies 400; a known id
   * replaces the first card with that id by its merge with the body and
   * changes no other position.
   */
  function EditOutcome(cards: seq<Card>, id: CardId, edit: EditBody): (r: Outcome)
    ensures !HasId(cards, id) ==> r == Outcome(cards, Response(400, Message(INVALID_CARD_ID)))
    ensures |r.cards| == |cards| && IdsOf(r.cards) == IdsOf(cards)
    ensures HasId(cards, id) ==>
      var k := FirstIndex(cards, id);
      && r.cards[k] == Merge(cards[k], edit)
      && (forall j | 0 <= j < |cards| && j != k :: r.cards[j] == cards[j])
      && r.response == Response(200, EditedCard(r.cards[k]))
    ensures WellFormed(cards) ==> WellFormed(r.cards)
  {
    var k := FirstIndex(cards, id);
    if k == -1 then Outcome(cards, Response(400, Message(INVALID_CARD_ID)))
    else
      var cards' := cards[k := Merge(cards[k], edit)];
      assert IdsOf(cards') == IdsOf(cards);
      Outcome(cards', Response(200, EditedCard(cards'[k])))
  }

  /**
   * confirmCompletedCard: an unknown id replies 400; a found card whose status
   * is empty replies 403; any other found card gets status Complete, nothing
   * else changes, and the reply carries the updated card.
   */
  function CompleteOutcome(cards: seq<Card>, id: CardId): (r: Outcome)
    ensures !HasId(cards, id) ==> r == Outcome(cards, Response(400, Message(INVALID_CARD_ID)))
    ensures |r.cards| == |cards| && IdsOf(r.cards) == IdsOf(cards)
    ensures HasId(cards, id) ==>
      var k := FirstIndex(cards, id);
      if cards[k].status == "" then
        r == Outcome(cards, Response(403, Message(ALREADY_COMPLETED)))
      else
        && r.cards == cards[k := cards[k].(status := StatusName(Complete))]
        && r.response == Response(200, CompletedCard(r.cards[k]))
    ensures WellFormed(cards) ==> WellFormed(r.cards)
  {
    var k := FirstIndex(cards, id);
    if k == -1 then Outcome(cards, Response(400, Message(INVALID_CARD_ID)))
    else if cards[k].status == "" then Outcome(cards, Response(403, Message(ALREADY_COMPLETED)))
    else
      var cards' := cards[k := cards[k].(status := StatusName(Complete))];
      assert IdsOf(cards') == IdsOf(cards);
      Outcome(cards', Response(200, CompletedCard(cards'[k])))
  }

  /**
   * `Array.prototype.splice(start, 1)`: a negative start counts from the end
   * and is clamped at 0, a start past the end removes nothing.
   */
  function SpliceOne<T>(s: seq<T>, start: int): (r: seq<T>)
    ensures 0 <= start < |s| ==> r == s[..start] + s[start + 1..]
    ensures start == -1 && |s| > 0 ==> r == s[..|s| - 1]
    ensures |s| == 0 ==> r == []
  {
    var actual :=
      if start < 0 then (if |s| + start < 0 then 0 else |s| + start)
      else (if start < |s| then start else |s|);
    if actual < |s| then s[..actual] + s[actual + 1..] else s
  }

  /**
   * deleteCard: the reply is always 204. A known id removes the first card
   * with that id; an unknown id gives index -1, which splice reads as the
   * last position, so the last card goes (nothing, on an empty list).
   */
  function DeleteOutcome(cards: seq<Card>, id: CardId): (r: Outcome)
    ensures r.response == Response(204, NoContent)
    ensures HasId(cards, id) ==>
      var k := FirstIndex(cards, id);
      r.cards == cards[..k] + cards[k + 1..]
    ensures !HasId(cards, id) ==> r.cards == if |cards| == 0 then [] else cards[..|cards| - 1]
  {
    Outcome(SpliceOne(cards, FirstIndex(cards, id)), Response(204, NoContent))
  }

  /** Removing one position keeps the remaining ids unique and statuses known. */
  lemma RemovePreservesWellFormed(cards: seq<Card>, k: nat)
    requires WellFormed(cards) && k < |cards|
    ensures WellFormed(cards[..k] + cards[k + 1..])
  {
    var r := cards[..k] + cards[k + 1..];
    forall i, j | 0 <= i < j < |r| ensures r[i].id != r[j].id {
      var i' := if i < k then i else i + 1;
      var j' := if j < k then j else j + 1;
      assert r[i] == cards[i'] && r[j] == cards[j'];
    }
  }

  lemma DeletePreservesWellFormed(cards: seq<Card>, id: CardId)
    requires WellFormed(cards)
    ensures WellFormed(DeleteOutcome(cards, id).cards)
  {
    if HasId(cards, id) {
      RemovePreservesWellFormed(cards, FirstIndex(cards, id));
    } else if |cards| > 0 {
      RemovePreservesWellFormed(cards, |cards| - 1);
      assert cards[..|cards| - 1] == cards[..|cards| - 1] + cards[|cards|..];
    }
  }

  /**
   * Deleting a known id from a list with unique ids removes exactly that card:
   * the id is gone and every other card stays, in its relative order.
   */
  lemma DeleteRemovesExactlyThatCard(cards: seq<Card>, id: CardId)
    requires UniqueIds(cards) && HasId(cards, id)
    ensures var r := DeleteOutcome(cards, id).cards;
      && |r| == |cards| - 1
      && !HasId(r, id)
      && multiset(r) + multiset{cards[FirstIndex(cards, id)]} == multiset(cards)
  {
    var k := FirstIndex(cards, id);
    var r := DeleteOutcome(cards, id).cards;
    assert cards == cards[..k] + [cards[k]] + cards[k + 1..];
    forall j | 0 <= j < |r| ensures r[j].id != id {
      if j < k {
        assert r[j] == cards[j];
      } else {
        assert r[j] == cards[j + 1];
      }
    }
  }

  /**
   * Completing is idempotent: running the handler a second time on its own
   * result changes nothing and replies exactly as the first run did.
   */
  lemma CompleteIdempotent(cards: seq<Card>, id: CardId)
    ensures var once := CompleteOutcome(cards, id);
      CompleteOutcome(once.cards, id) == once
  {
    var once := CompleteOutcome(cards, id);
    FirstIndexByIds(cards, once.cards, id);
    if HasId(cards, id) {
      var k := FirstIndex(cards, id);
      assert HasId(once.cards, id) by {
        assert once.cards[k].id == id;
      }
      if cards[k].status != "" {
        assert once.cards[k := once.cards[k].(status := StatusName(Complete))] == once.cards;
      }
    } else {
      assert once.cards == cards;
    }
  }

  /**
   * The 403 reply happens exactly when the found card's status is empty, so a
   * card already marked Complete is accepted again.
   */
  lemma ForbiddenOnlyForEmptyStatus(cards: seq<Card>, id: CardId)
    ensures CompleteOutcome(cards, id).response.code == 403
        <==> HasId(cards, id) && cards[FirstIndex(cards, id)].status == ""
    ensures HasId(cards, id) && cards[FirstIndex(cards, id)].status == StatusName(Complete) ==>
      CompleteOutcome(cards, id) == Outcome(cards, Response(200, CompletedCard(cards[FirstIndex(cards, id)])))
  {
    if HasId(cards, id) {
      var k := FirstIndex(cards, id);
      if cards[k].status == StatusName(Complete) {
        assert cards[k := cards[k].(status := StatusName(Complete))] == cards;
      }
    }
  }

  /** On a well-formed list the 403 branch of confirmCompletedCard is unreachable. */
  lemma WellFormedNeverForbidden(cards: seq<Card>, id: CardId)
    requires WellFormed(cards)
    ensures CompleteOutcome(cards, id).response.code != 403
  {
    ForbiddenOnlyForEmptyStatus(cards, id);
    if HasId(cards, id) {
      var k := FirstIndex(cards, id);
      assert cards[k].status in {StatusName(Incomplete), StatusName(Complete)};
    }
  }
}
