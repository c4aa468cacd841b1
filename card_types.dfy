/**
 * The vocabulary of a card: the string enums of
 * src/helpers/typescript-helpers/enums.ts and the card record of
 * src/helpers/typescript-helpers/interfaces.ts, plus the shape of a
 * handler's reply.
 */
module CardTypes {
  import opened Wrappers

  datatype Difficulty = Easy | Normal | Hard
  datatype Status = Incomplete | Complete
  datatype CardType = Task | Challenge
  datatype Category = Stuff | Family | Health | Learning | Leisure | Work

  /** The string each enum member stands for on the wire and in the database. */
  function DifficultyName(d: Difficulty): string
  {
    match d
    case Easy => "Easy"
    case Normal => "Normal"
    case Hard => "Hard"
  }

  function StatusName(s: Status): string
  {
    match s
    case Incomplete => "Incomplete"
    case Complete => "Complete"
  }

  function CardTypeName(t: CardType): string
  {
    match t
    case Task => "Task"
    case Challenge => "Challenge"
  }

  function CategoryName(c: Category): string
  {
    match c
    case Stuff => "Stuff"
    case Family => "Family"
    case Health => "Health"
    case Learning => "Learning"
    case Leisure => "Leisure"
    case Work => "Work"
  }

  /** Reads a difficulty back from its string: exactly the three names are accepted. */
  function ParseDifficulty(s: string): (r: Option<Difficulty>)
    ensures r.Some? ==> DifficultyName(r.value) == s
    ensures forall d: Difficulty :: DifficultyName(d) == s ==> r == Some(d)
  {
    if s == "Easy" then Some(Easy)
    else if s == "Normal" then Some(Normal)
    else if s == "Hard" then Some(Hard)
    else None
  }

  function ParseCardType(s: string): (r: Option<CardType>)
    ensures r.Some? ==> CardTypeName(r.value) == s
    ensures forall t: CardType :: CardTypeName(t) == s ==> r == Some(t)
  {
    if s == "Task" then Some(Task)
    else if s == "Challenge" then Some(Challenge)
    else None
  }

  function ParseCategory(s: string): (r: Option<Category>)
    ensures r.Some? ==> CategoryName(r.value) == s
    ensures forall c: Category :: CategoryName(c) == s ==> r == Some(c)
  {
    if s == "Stuff" then Some(Stuff)
    else if s == "Family" then Some(Family)
    else if s == "Health" then Some(Health)
    else if s == "Learning" then Some(Learning)
    else if s == "Leisure" then Some(Leisure)
    else if s == "Work" then Some(Work)
    else None
  }

  /** The opaque database id of a card, in its `toString()` form. */
  type CardId = string

  /**
   * A stored card. `status` stays a string, as the database schema stores it:
   * the completion handler tests it for emptiness, not for membership.
   */
  datatype Card = Card(
    id: CardId,
    title: string,
    date: string,
    time: string,
    cardType: CardType,
    category: Category,
    difficulty: Difficulty,
    status: string)

  /** A request body that passed the create schema: all six fields. */
  datatype CreateBody = CreateBody(
    title: string,
    date: string,
    time: string,
    cardType: CardType,
    category: Category,
    difficulty: Difficulty)

  /** A request body that passed the edit schema: every field optional. */
  datatype EditBody = EditBody(
    title: Option<string>,
    date: Option<string>,
    time: Option<string>,
    cardType: Option<CardType>,
    category: Option<Category>,
    difficulty: Option<Difficulty>)

  /** The six client-supplied fields of a stored card. */
  function Fields(c: Card): CreateBody
  {
    CreateBody(c.title, c.date, c.time, c.cardType, c.category, c.difficulty)
  }

  /** What a handler sends back: a status code and a JSON body. */
  datatype Payload =
    | Message(text: string)
    | CreatedCard(card: Card)
    | EditedCard(card: Card)
    | CompletedCard(card: Card)
    | Cards(cards: seq<Card>)
    | NoContent

  datatype Response = Response(code: int, payload: Payload)
}
