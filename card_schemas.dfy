/**
 * The request schemas of src/card/card.router.ts (`createCardSchema`,
 * `editCardSchema`, `cardIdSchema`) as functions from a decoded JSON object
 * to either the typed body the handler receives or the first problem found.
 *
 * The order is the validator's: the schema keys in declaration order, each
 * first for presence, then for its list of allowed values or its string
 * rules; keys the schema does not name are reported only after every named
 * key passed; the first problem ends validation.
 */
module CardSchemas {
  import opened Wrappers
  import opened CardTypes
  import opened CardPatterns

  /** A JSON value as far as the schemas care: a string, or anything else. */
  datatype Value = Text(s: string) | NonText

  datatype Field = Field(key: string, value: Value)

  /** A JSON object: its fields in enumeration order, no key twice. */
  predicate DistinctKeys(fields: seq<Field>)
  {
    forall i, j | 0 <= i < j < |fields| :: fields[i].key != fields[j].key
  }

  type Body = b: seq<Field> | DistinctKeys(b)

  /** The keys both body schemas name. */
  datatype Key = Title | Date | Time | Type | Category | Difficulty

  function KeyName(k: Key): string
  {
    match k
    case Title => "title"
    case Date => "date"
    case Time => "time"
    case Type => "type"
    case Category => "category"
    case Difficulty => "difficulty"
  }

  /** The schema keys in declaration order, and their names. */
  const SCHEMA_KEYS: seq<Key> := [Title, Date, Time, Type, Category, Difficulty]
  const CARD_KEYS: seq<string> := ["title", "date", "time", "type", "category", "difficulty"]

  /** The allowed values as each schema lists them (and its message prints them). */
  const TYPE_VALIDS: seq<string> := ["Task", "Challenge"]
  const CATEGORY_VALIDS: seq<string> := ["Family", "Health", "Learning", "Leisure", "Stuff", "Work"]
  const DIFFICULTY_VALIDS: seq<string> := ["Easy", "Normal", "Hard"]

  const TITLE_MIN: nat := 2
  const TITLE_MAX: nat := 100

  /** What went wrong; each kind has the message the client receives. */
  datatype Issue =
    | Missing(key: string)
    | NotAString(key: string)
    | EmptyString(key: string)
    | TooShort(key: string, limit: nat)
    | TooLong(key: string, limit: nat)
    | NotOneOf(key: string, valids: seq<string>)
    | NotAllowed(key: string)
    | BadDate
    | BadTime
    | BadCardId

  /** The key an issue is about. */
  function Subject(e: Issue): string
  {
    match e
    case BadDate => "date"
    case BadTime => "time"
    case BadCardId => "cardId"
    case _ => e.key
  }

  function DigitChar(d: nat): char
    requires d < 10
  {
    ('0' as int + d) as char
  }

  function NatToString(n: nat): string
  {
    if n < 10 then [DigitChar(n)] else NatToString(n / 10) + [DigitChar(n % 10)]
  }

  function Join(items: seq<string>): string
  {
    if |items| == 0 then ""
    else if |items| == 1 then items[0]
    else items[0] + ", " + Join(items[1..])
  }

  function Quoted(key: string): string
  {
    "\"" + key + "\""
  }

  /** The opening of the custom messages, `Invalid '<key>'.` */
  function Invalid(key: string): string
  {
    "Invalid '" + key + "'."
  }

  /**
   * The message names the key it is about at its start: the validator's own
   * messages with the key in quotes, the custom ones with `Invalid '<key>'.`
   */
  predicate NamesKey(e: Issue, text: string)
  {
    if e.BadDate? || e.BadTime? || e.BadCardId? then Invalid(Subject(e)) <= text
    else Quoted(Subject(e)) <= text
  }

  function Opening(e: Issue): string
  {
    if e.BadDate? || e.BadTime? || e.BadCardId? then Invalid(Subject(e)) else Quoted(Subject(e))
  }

  /** What the message says after its opening. */
  function Complaint(e: Issue): string
  {
    match e
    case Missing(_) => " is required"
    case NotAString(_) => " must be a string"
    case EmptyString(_) => " is not allowed to be empty"
    case TooShort(_, n) => " length must be at least " + NatToString(n) + " characters long"
    case TooLong(_, n) => " length must be less than or equal to " + NatToString(n) + " characters long"
    case NotOneOf(_, vs) => " must be one of [" + Join(vs) + "]"
    case NotAllowed(_) => " is not allowed"
    case BadDate => " Please, use YYYY-MM-DD string format"
    case BadTime => " Please, use HH:MM string format"
    case BadCardId => " Must be a MongoDB ObjectId"
  }

  /** The text of the reply for an issue. */
  function Describe(e: Issue): (r: string)
    ensures NamesKey(e, r)
  {
    Opening(e) + Complaint(e)
  }

  /** The value of `key` in the body, if the body has that key. */
  function Lookup(body: seq<Field>, key: string): (r: Option<Value>)
    ensures r.None? <==> forall i | 0 <= i < |body| :: body[i].key != key
    ensures r.Some? ==> exists i | 0 <= i < |body| :: body[i] == Field(key, r.value)
  {
    if |body| == 0 then None
    else if body[0].key == key then Some(body[0].value)
    else
      var r := Lookup(body[1..], key);
      assert r.Some? ==> exists i | 0 <= i < |body| :: body[i] == Field(key, r.value) by {
        if r.Some? {
          var i :| 0 <= i < |body[1..]| && body[1..][i] == Field(key, r.value);
          assert body[i + 1] == Field(key, r.value);
        }
      }
      r
  }

  /** The string given for `key`, if the body gives one. */
  function Given(body: seq<Field>, key: Key): Option<string>
  {
    match Lookup(body, KeyName(key))
    case Some(Text(s)) => Some(s)
    case _ => None
  }

  // ------------------------------------------------ what each key accepts

  /** Reference reading of the value each key accepts. */
  ghost predicate Acceptable(key: Key, v: Value)
  {
    && v.Text?
    && match key
       case Title => TITLE_MIN <= |v.s| <= TITLE_MAX
       case Date => exists i :: IsDateAt(v.s, i)
       case Time => IsTime(v.s)
       case Type => v.s in TYPE_VALIDS
       case Category => v.s in CATEGORY_VALIDS
       case Difficulty => v.s in DIFFICULTY_VALIDS
  }

  /** `Joi.string()`: a string, and not the empty one. */
  function CheckString(key: string, v: Value): (r: Result<string, Issue>)
    ensures r.Success? <==> v.Text? && v.s != ""
    ensures r.Success? ==> r.value == v.s
    ensures r.Failure? ==> Subject(r.error) == key
  {
    match v
    case NonText => Failure(NotAString(key))
    case Text(s) => if s == "" then Failure(EmptyString(key)) else Success(s)
  }

  /** `Joi.string().min(2).max(100)`. */
  function CheckTitle(v: Value): (r: Result<string, Issue>)
    ensures r.Success? <==> Acceptable(Title, v)
    ensures r.Success? ==> r.value == v.s
    ensures r.Failure? ==> Subject(r.error) == "title"
  {
    var s :- CheckString("title", v);
    if |s| < TITLE_MIN then Failure(TooShort("title", TITLE_MIN))
    else if |s| > TITLE_MAX then Failure(TooLong("title", TITLE_MAX))
    else Success(s)
  }

  /** `Joi.string().custom(...)` with the date pattern. */
  function CheckDate(v: Value): (r: Result<string, Issue>)
    ensures r.Success? <==> Acceptable(Date, v)
    ensures r.Success? ==> r.value == v.s
    ensures r.Failure? ==> Subject(r.error) == "date"
    ensures v.Text? && v.s != "" && r.Failure? ==> r.error == BadDate
  {
    var s :- CheckString("date", v);
    DateMatchesIff(s);
    if DateMatches(s) then Success(s) else Failure(BadDate)
  }

  /** `Joi.string().custom(...)` with the time pattern. */
  function CheckTime(v: Value): (r: Result<string, Issue>)
    ensures r.Success? <==> Acceptable(Time, v)
    ensures r.Success? ==> r.value == v.s
    ensures r.Failure? ==> Subject(r.error) == "time"
    ensures v.Text? && v.s != "" && r.Failure? ==> r.error == BadTime
  {
    var s :- CheckString("time", v);
    TimeMatchesIff(s);
    if TimeMatches(s) then Success(s) else Failure(BadTime)
  }

  /** `Joi.string().valid(Task, Challenge)`. */
  function CheckType(v: Value): (r: Result<CardType, Issue>)
    ensures r.Success? <==> Acceptable(Type, v)
    ensures r.Success? ==> CardTypeName(r.value) == v.s
    ensures r.Failure? ==> r.error == NotOneOf("type", TYPE_VALIDS)
  {
    if v.Text? && ParseCardType(v.s).Some? then Success(ParseCardType(v.s).value)
    else Failure(NotOneOf("type", TYPE_VALIDS))
  }

  /** `Joi.string().valid(Family, Health, Learning, Leisure, Stuff, Work)`. */
  function CheckCategory(v: Value): (r: Result<Category, Issue>)
    ensures r.Success? <==> Acceptable(Category, v)
    ensures r.Success? ==> CategoryName(r.value) == v.s
    ensures r.Failure? ==> r.error == NotOneOf("category", CATEGORY_VALIDS)
  {
    if v.Text? && ParseCategory(v.s).Some? then Success(ParseCategory(v.s).value)
    else Failure(NotOneOf("category", CATEGORY_VALIDS))
  }

  /** `Joi.string().valid(Easy, Normal, Hard)`. */
  function CheckDifficulty(v: Value): (r: Result<Difficulty, Issue>)
    ensures r.Success? <==> Acceptable(Difficulty, v)
    ensures r.Success? ==> DifficultyName(r.value) == v.s
    ensures r.Failure? ==> r.error == NotOneOf("difficulty", DIFFICULTY_VALIDS)
  {
    if v.Text? && ParseDifficulty(v.s).Some? then Success(ParseDifficulty(v.s).value)
    else Failure(NotOneOf("difficulty", DIFFICULTY_VALIDS))
  }

  /** A key marked `.required()`: absent, it is reported as required; present, its value is checked. */
  function RequiredKey<T>(body: seq<Field>, key: Key, check: Value -> Result<T, Issue>): (r: Result<T, Issue>)
    ensures Lookup(body, KeyName(key)).None? ==> r == Failure(Missing(KeyName(key)))
    ensures r.Success? ==> Lookup(body, KeyName(key)).Some? && check(Lookup(body, KeyName(key)).value) == r
  {
    match Lookup(body, KeyName(key))
    case None => Failure(Missing(KeyName(key)))
    case Some(v) => check(v)
  }

  /** A key the schema names without `.required()`: absent, it passes as absent. */
  function OptionalKey<T>(body: seq<Field>, key: Key, check: Value -> Result<T, Issue>): (r: Result<Option<T>, Issue>)
    ensures Lookup(body, KeyName(key)).None? ==> r == Success(None)
    ensures r.Success? && r.value.Some? ==> check(Lookup(body, KeyName(key)).value) == Success(r.value.value)
    ensures r.Failure? ==> Lookup(body, KeyName(key)).Some? && check(Lookup(body, KeyName(key)).value) == Failure(r.error)
  {
    match Lookup(body, KeyName(key))
    case None => Success(None)
    case Some(v) =>
      var x :- check(v);
      Success(Some(x))
  }

  /** The first key of the body, in order, that `known` does not name. */
  function FirstUnknown(body: seq<Field>, known: seq<string>): (r: Option<string>)
    ensures r.None? <==> forall i | 0 <= i < |body| :: body[i].key in known
    ensures r.Some? ==> r.value !in known
    ensures r.Some? ==> exists i | 0 <= i < |body| ::
      body[i].key == r.value && forall j | 0 <= j < i :: body[j].key in known
  {
    if |body| == 0 then None
    else if body[0].key !in known then Some(body[0].key)
    else
      var r := FirstUnknown(body[1..], known);
      assert r.Some? ==> exists i | 0 <= i < |body| ::
        body[i].key == r.value && forall j | 0 <= j < i :: body[j].key in known
      by {
        if r.Some? {
          var i :| 0 <= i < |body[1..]| && body[1..][i].key == r.value
            && forall j | 0 <= j < i :: body[1..][j].key in known;
          assert forall j | 0 <= j < i + 1 :: body[j].key in known by {
            forall j | 0 <= j < i + 1 ensures body[j].key in known {
              if j > 0 { assert body[j] == body[1..][j - 1]; }
            }
          }
          assert body[i + 1].key == r.value;
        }
      }
      r
  }

  // ------------------------------------------------ the three schemas

  /**
   * On the value the body gives for `key`, if any, `check` passes exactly
   * when the value is acceptable and reports a failure about `key`.
   */
  ghost predicate CheckMeets<T>(body: seq<Field>, key: Key, check: Value -> Result<T, Issue>)
  {
    Lookup(body, KeyName(key)).Some? ==>
      var v := Lookup(body, KeyName(key)).value;
      && (check(v).Success? <==> Acceptable(key, v))
      && (check(v).Failure? ==> Subject(check(v).error) == KeyName(key))
  }

  /** Each check of the two body schemas meets `CheckMeets` for its own key. */
  lemma ChecksMeet(body: seq<Field>)
    ensures CheckMeets(body, Title, CheckTitle)
    ensures CheckMeets(body, Date, CheckDate)
    ensures CheckMeets(body, Time, CheckTime)
    ensures CheckMeets(body, Type, CheckType)
    ensures CheckMeets(body, Category, CheckCategory)
    ensures CheckMeets(body, Difficulty, CheckDifficulty)
  {
  }

  /**
   * With a check that meets `CheckMeets` for `key`, a required key passes
   * exactly when it is present with an acceptable value, and fails with a
   * problem about `key`.
   */
  lemma RequiredKeyMeets<T>(body: seq<Field>, key: Key, check: Value -> Result<T, Issue>)
    requires CheckMeets(body, key, check)
    ensures RequiredKey(body, key, check).Success? <==> Accepted(body, key)
    ensures RequiredKey(body, key, check).Failure? ==> Subject(RequiredKey(body, key, check).error) == KeyName(key)
  {
  }

  /** The same for a key without `.required()`: it passes when absent or acceptable. */
  lemma OptionalKeyMeets<T>(body: seq<Field>, key: Key, check: Value -> Result<T, Issue>)
    requires CheckMeets(body, key, check)
    ensures OptionalKey(body, key, check).Success? <==> AcceptedIfGiven(body, key)
    ensures OptionalKey(body, key, check).Failure? ==> Subject(OptionalKey(body, key, check).error) == KeyName(key)
  {
  }

  /** The schema key is present and its value acceptable. */
  ghost predicate Accepted(body: seq<Field>, key: Key)
  {
    Lookup(body, KeyName(key)).Some? && Acceptable(key, Lookup(body, KeyName(key)).value)
  }

  /** The schema key is absent, or present with an acceptable value. */
  ghost predicate AcceptedIfGiven(body: seq<Field>, key: Key)
  {
    Lookup(body, KeyName(key)).Some? ==> Acceptable(key, Lookup(body, KeyName(key)).value)
  }

  predicate OnlyCardKeys(body: seq<Field>)
  {
    forall i | 0 <= i < |body| :: body[i].key in CARD_KEYS
  }

  /** Reference reading of createCardSchema: all six keys, each acceptable, and no other key. */
  ghost predicate CreateAccepts(body: seq<Field>)
  {
    && Accepted(body, Title) && Accepted(body, Date) && Accepted(body, Time)
    && Accepted(body, Type) && Accepted(body, Category) && Accepted(body, Difficulty)
    && OnlyCardKeys(body)
  }

  /** Reference reading of editCardSchema: any subset of the six keys, each acceptable, and no other key. */
  ghost predicate EditAccepts(body: seq<Field>)
  {
    && AcceptedIfGiven(body, Title) && AcceptedIfGiven(body, Date) && AcceptedIfGiven(body, Time)
    && AcceptedIfGiven(body, Type) && AcceptedIfGiven(body, Category) && AcceptedIfGiven(body, Difficulty)
    && OnlyCardKeys(body)
  }

  function NameOf<T>(o: Option<T>, name: T -> string): Option<string>
  {
    match o
    case Some(x) => Some(name(x))
    case None => None
  }

  /** The string keys of createCardSchema, in schema order: title, date, time. */
  function CreateTexts(body: seq<Field>): (r: Result<(string, string, string), Issue>)
    ensures r.Success? <==> Accepted(body, Title) && Accepted(body, Date) && Accepted(body, Time)
    ensures r.Success? ==>
      Given(body, Title) == Some(r.value.0) && Given(body, Date) == Some(r.value.1) && Given(body, Time) == Some(r.value.2)
  {
    ChecksMeet(body);
    var title := RequiredKey(body, Title, CheckTitle);
    RequiredKeyMeets(body, Title, CheckTitle);
    if title.Failure? then Failure(title.error) else
    var date := RequiredKey(body, Date, CheckDate);
    RequiredKeyMeets(body, Date, CheckDate);
    if date.Failure? then Failure(date.error) else
    var time := RequiredKey(body, Time, CheckTime);
    RequiredKeyMeets(body, Time, CheckTime);
    if time.Failure? then Failure(time.error) else
    Success((title.value, date.value, time.value))
  }

  /** The listed keys of createCardSchema, in schema order: type, category, difficulty. */
  function CreateChoices(body: seq<Field>): (r: Result<(CardType, Category, Difficulty), Issue>)
    ensures r.Success? <==> Accepted(body, Type) && Accepted(body, Category) && Accepted(body, Difficulty)
    ensures r.Success? ==>
      && Given(body, Type) == Some(CardTypeName(r.value.0))
      && Given(body, Category) == Some(CategoryName(r.value.1))
      && Given(body, Difficulty) == Some(DifficultyName(r.value.2))
  {
    ChecksMeet(body);
    var cardType := RequiredKey(body, Type, CheckType);
    RequiredKeyMeets(body, Type, CheckType);
    if cardType.Failure? then Failure(cardType.error) else
    var category := RequiredKey(body, Category, CheckCategory);
    RequiredKeyMeets(body, Category, CheckCategory);
    if category.Failure? then Failure(category.error) else
    var difficulty := RequiredKey(body, Difficulty, CheckDifficulty);
    RequiredKeyMeets(body, Difficulty, CheckDifficulty);
    if difficulty.Failure? then Failure(difficulty.error) else
    Success((cardType.value, category.value, difficulty.value))
  }

  /**
   * createCardSchema: succeeds exactly on the bodies the reference reading
   * accepts, and then hands on the very strings the client sent.
   */
  function ValidateCreate(body: Body): (r: Result<CreateBody, Issue>)
    ensures r.Success? ==> CreateAccepts(body)
    ensures CreateAccepts(body) ==> r.Success?
    ensures r.Success? ==>
      && Given(body, Title) == Some(r.value.title)
      && Given(body, Date) == Some(r.value.date)
      && Given(body, Time) == Some(r.value.time)
      && Given(body, Type) == Some(CardTypeName(r.value.cardType))
      && Given(body, Category) == Some(CategoryName(r.value.category))
      && Given(body, Difficulty) == Some(DifficultyName(r.value.difficulty))
  {
    var texts :- CreateTexts(body);
    var choices :- CreateChoices(body);
    match FirstUnknown(body, CARD_KEYS)
    case Some(k) => Failure(NotAllowed(k))
    case None => Success(CreateBody(texts.0, texts.1, texts.2, choices.0, choices.1, choices.2))
  }

  /** The string keys of editCardSchema, in schema order: title, date, time. */
  function EditTexts(body: seq<Field>): (r: Result<(Option<string>, Option<string>, Option<string>), Issue>)
    ensures r.Success? <==>
      AcceptedIfGiven(body, Title) && AcceptedIfGiven(body, Date) && AcceptedIfGiven(body, Time)
    ensures r.Success? ==>
      Given(body, Title) == r.value.0 && Given(body, Date) == r.value.1 && Given(body, Time) == r.value.2
    ensures r.Failure? ==>
      Subject(r.error) == (if !AcceptedIfGiven(body, Title) then "title" else if !AcceptedIfGiven(body, Date) then "date" else "time")
  {
    ChecksMeet(body);
    var title := OptionalKey(body, Title, CheckTitle);
    OptionalKeyMeets(body, Title, CheckTitle);
    if title.Failure? then Failure(title.error) else
    var date := OptionalKey(body, Date, CheckDate);
    OptionalKeyMeets(body, Date, CheckDate);
    if date.Failure? then Failure(date.error) else
    var time := OptionalKey(body, Time, CheckTime);
    OptionalKeyMeets(body, Time, CheckTime);
    if time.Failure? then Failure(time.error) else
    Success((title.value, date.value, time.value))
  }

  /** The listed keys of editCardSchema, in schema order: type, category, difficulty. */
  function EditChoices(body: seq<Field>): (r: Result<(Option<CardType>, Option<Category>, Option<Difficulty>), Issue>)
    ensures r.Success? <==>
      AcceptedIfGiven(body, Type) && AcceptedIfGiven(body, Category) && AcceptedIfGiven(body, Difficulty)
    ensures r.Success? ==>
      && Given(body, Type) == NameOf(r.value.0, CardTypeName)
      && Given(body, Category) == NameOf(r.value.1, CategoryName)
      && Given(body, Difficulty) == NameOf(r.value.2, DifficultyName)
    ensures r.Failure? ==>
      Subject(r.error) == (if !AcceptedIfGiven(body, Type) then "type" else if !AcceptedIfGiven(body, Category) then "category" else "difficulty")
  {
    ChecksMeet(body);
    var cardType := OptionalKey(body, Type, CheckType);
    OptionalKeyMeets(body, Type, CheckType);
    if cardType.Failure? then Failure(cardType.error) else
    var category := OptionalKey(body, Category, CheckCategory);
    OptionalKeyMeets(body, Category, CheckCategory);
    if category.Failure? then Failure(category.error) else
    var difficulty := OptionalKey(body, Difficulty, CheckDifficulty);
    OptionalKeyMeets(body, Difficulty, CheckDifficulty);
    if difficulty.Failure? then Failure(difficulty.error) else
    Success((cardType.value, category.value, difficulty.value))
  }

  /**
   * editCardSchema: succeeds exactly on the bodies the reference reading
   * accepts; a key the client left out stays out of the result.
   */
  function ValidateEdit(body: Body): (r: Result<EditBody, Issue>)
    ensures r.Success? ==> EditAccepts(body)
    ensures EditAccepts(body) ==> r.Success?
    ensures r.Success? ==>
      && Given(body, Title) == r.value.title
      && Given(body, Date) == r.value.date
      && Given(body, Time) == r.value.time
    ensures r.Success? ==>
      && Given(body, Type) == NameOf(r.value.cardType, CardTypeName)
      && Given(body, Category) == NameOf(r.value.category, CategoryName)
      && Given(body, Difficulty) == NameOf(r.value.difficulty, DifficultyName)
  {
    var texts :- EditTexts(body);
    var choices :- EditChoices(body);
    match FirstUnknown(body, CARD_KEYS)
    case Some(k) => Failure(NotAllowed(k))
    case None => Success(EditBody(texts.0, texts.1, texts.2, choices.0, choices.1, choices.2))
  }

  /** cardIdSchema: a non-empty string that the ObjectId check accepts. */
  function CheckCardId(cardId: string, isObjectId: string -> bool): (r: Result<CardId, Issue>)
    ensures r.Success? <==> cardId != "" && isObjectId(cardId)
    ensures r.Success? ==> r.value == cardId
    ensures r.Failure? && cardId != "" ==> r.error == BadCardId
  {
    var id :- CheckString("cardId", Text(cardId));
    if isObjectId(id) then Success(id) else Failure(BadCardId)
  }

  // ------------------------------------------------ which problem is reported

  /**
   * A body that fails createCardSchema is answered with a problem about the
   * first schema key, in declaration order, that is missing or unacceptable;
   * a missing key is reported as required.
   */
  lemma CreateReportsFirstFailingKey(body: Body, n: nat)
    requires n < |SCHEMA_KEYS|
    requires forall m | 0 <= m < n :: Accepted(body, SCHEMA_KEYS[m])
    requires !Accepted(body, SCHEMA_KEYS[n])
    ensures ValidateCreate(body).Failure?
    ensures Subject(ValidateCreate(body).error) == KeyName(SCHEMA_KEYS[n])
    ensures Lookup(body, KeyName(SCHEMA_KEYS[n])).None? ==> ValidateCreate(body).error == Missing(KeyName(SCHEMA_KEYS[n]))
  {
    ChecksMeet(body);
    RequiredKeyMeets(body, Title, CheckTitle);
    RequiredKeyMeets(body, Date, CheckDate);
    RequiredKeyMeets(body, Time, CheckTime);
    RequiredKeyMeets(body, Type, CheckType);
    RequiredKeyMeets(body, Category, CheckCategory);
    RequiredKeyMeets(body, Difficulty, CheckDifficulty);
    var keys := SCHEMA_KEYS;
    assert keys[0] == Title && keys[1] == Date && keys[2] == Time;
    assert keys[3] == Type && keys[4] == Category && keys[5] == Difficulty;
    if n > 0 { assert Accepted(body, keys[0]); }
    if n > 1 { assert Accepted(body, keys[1]); }
    if n > 2 { assert Accepted(body, keys[2]); }
    if n > 3 { assert Accepted(body, keys[3]); }
    if n > 4 { assert Accepted(body, keys[4]); }
  }

  /**
   * The same for editCardSchema, where only a key that is present can fail.
   */
  lemma EditReportsFirstFailingKey(body: Body, n: nat)
    requires n < |SCHEMA_KEYS|
    requires forall m | 0 <= m < n :: AcceptedIfGiven(body, SCHEMA_KEYS[m])
    requires !AcceptedIfGiven(body, SCHEMA_KEYS[n])
    ensures ValidateEdit(body).Failure?
    ensures Subject(ValidateEdit(body).error) == KeyName(SCHEMA_KEYS[n])
  {
    var keys := SCHEMA_KEYS;
    assert keys[0] == Title && keys[1] == Date && keys[2] == Time;
    assert keys[3] == Type && keys[4] == Category && keys[5] == Difficulty;
    if n > 0 { assert AcceptedIfGiven(body, keys[0]); }
    if n > 1 { assert AcceptedIfGiven(body, keys[1]); }
    if n > 2 { assert AcceptedIfGiven(body, keys[2]); }
    if n > 3 { assert AcceptedIfGiven(body, keys[3]); }
    if n > 4 { assert AcceptedIfGiven(body, keys[4]); }
  }

  /**
   * A key outside the schema is reported, as not allowed, only when every
   * key the edit schema names passed; the first such key in the body is named.
   */
  lemma EditRejectsUnknownKey(body: Body)
    requires forall n | 0 <= n < |SCHEMA_KEYS| :: AcceptedIfGiven(body, SCHEMA_KEYS[n])
    requires !OnlyCardKeys(body)
    ensures ValidateEdit(body) == Failure(NotAllowed(FirstUnknown(body, CARD_KEYS).value))
    ensures Describe(ValidateEdit(body).error) == Quoted(FirstUnknown(body, CARD_KEYS).value) + " is not allowed"
  {
    ChecksMeet(body);
    OptionalKeyMeets(body, Title, CheckTitle);
    OptionalKeyMeets(body, Date, CheckDate);
    OptionalKeyMeets(body, Time, CheckTime);
    OptionalKeyMeets(body, Type, CheckType);
    OptionalKeyMeets(body, Category, CheckCategory);
    OptionalKeyMeets(body, Difficulty, CheckDifficulty);
    var keys := SCHEMA_KEYS;
    assert keys[0] == Title && keys[1] == Date && keys[2] == Time;
    assert keys[3] == Type && keys[4] == Category && keys[5] == Difficulty;
    assert AcceptedIfGiven(body, keys[0]) && AcceptedIfGiven(body, keys[1]) && AcceptedIfGiven(body, keys[2]);
    assert AcceptedIfGiven(body, keys[3]) && AcceptedIfGiven(body, keys[4]) && AcceptedIfGiven(body, keys[5]);
  }

  /** The reply to a `type` outside its list names the allowed values in schema order. */
  lemma TypeMessage()
    ensures Describe(NotOneOf("type", TYPE_VALIDS)) == "\"type\"" + " must be one of [" + "Task, Challenge" + "]"
  {
    assert TYPE_VALIDS[1..] == ["Challenge"];
    assert Join(TYPE_VALIDS) == "Task, Challenge";
    assert Quoted("type") == "\"type\"";
  }

  /** The reply to a missing `time` names the key in quotes. */
  lemma TimeRequiredMessage()
    ensures Describe(Missing("time")) == "\"time\"" + " is required"
  {
    assert Quoted("time") == "\"time\"";
  }

  /**
   * A create body whose title and date pass but which has no `time` is
   * refused for that key, whatever its type, category and difficulty.
   */
  lemma MissingTimeRefused(body: Body)
    requires Accepted(body, Title) && Accepted(body, Date)
    requires Lookup(body, "time").None?
    ensures ValidateCreate(body) == Failure(Missing("time"))
  {
    ChecksMeet(body);
    RequiredKeyMeets(body, Title, CheckTitle);
    RequiredKeyMeets(body, Date, CheckDate);
  }

  /** The create body the route tests send (title, difficulty, type, category, date). */
  const TEST_CREATE_BODY: Body := [
    Field("title", Text("Test")), Field("difficulty", Text("Easy")), Field("type", Text("Task")),
    Field("category", Text("Stuff")), Field("date", Text("2020-12-31"))]

  /** The create body the route tests send with the type `Taskk`, outside the list. */
  const TEST_INVALID_TYPE_BODY: Body := [
    Field("title", Text("Test")), Field("difficulty", Text("Easy")), Field("type", Text("Taskk")),
    Field("category", Text("Stuff")), Field("date", Text("2020-12-31"))]

  /** The title and the date both test bodies send pass their checks. */
  lemma TestValuesAcceptable()
    ensures Acceptable(Title, Text("Test")) && Acceptable(Date, Text("2020-12-31"))
  {
    assert DatePatternAt("2020-12-31", 0);
    assert CheckDate(Text("2020-12-31")).Success?;
  }

  /** The tests' create body gives the title `Test` and the date `2020-12-31`, and no time. */
  lemma TestCreateBodyKeys()
    ensures Lookup(TEST_CREATE_BODY, "title") == Some(Text("Test"))
    ensures Lookup(TEST_CREATE_BODY, "date") == Some(Text("2020-12-31"))
    ensures Lookup(TEST_CREATE_BODY, "time").None?
  {
    var b := TEST_CREATE_BODY;
    assert b[0] == Field("title", Text("Test"));
    assert b[1].key != "date" && b[2].key != "date" && b[3].key != "date";
    assert b[4] == Field("date", Text("2020-12-31"));
    assert forall i | 0 <= i < |b| :: b[i].key != "time";
  }

  /** So does the tests' body with the bad type. */
  lemma TestInvalidTypeBodyKeys()
    ensures Lookup(TEST_INVALID_TYPE_BODY, "title") == Some(Text("Test"))
    ensures Lookup(TEST_INVALID_TYPE_BODY, "date") == Some(Text("2020-12-31"))
    ensures Lookup(TEST_INVALID_TYPE_BODY, "time").None?
  {
    var b := TEST_INVALID_TYPE_BODY;
    assert b[0] == Field("title", Text("Test"));
    assert b[1].key != "date" && b[2].key != "date" && b[3].key != "date";
    assert b[4] == Field("date", Text("2020-12-31"));
    assert forall i | 0 <= i < |b| :: b[i].key != "time";
  }

  /**
   * The tests' create body carries no `time`, which the schema requires: it
   * is refused with that key's problem before `type` is looked at.
   */
  lemma CreateBodyWithoutTime()
    ensures ValidateCreate(TEST_CREATE_BODY) == Failure(Missing("time"))
  {
    TestValuesAcceptable();
    TestCreateBodyKeys();
    MissingTimeRefused(TEST_CREATE_BODY);
  }

  /**
   * The tests' body with the bad type `Taskk` has no `time` either, so it is
   * refused for the missing `time`, not for its type.
   */
  lemma InvalidTypeBodyWithoutTime()
    ensures ValidateCreate(TEST_INVALID_TYPE_BODY) == Failure(Missing("time"))
    ensures CheckType(Text("Taskk")) == Failure(NotOneOf("type", TYPE_VALIDS))
  {
    TestValuesAcceptable();
    TestInvalidTypeBodyKeys();
    MissingTimeRefused(TEST_INVALID_TYPE_BODY);
  }

  /** An edit body with one known key yields exactly that field and leaves the rest out. */
  lemma EditOneField()
    ensures ValidateEdit([Field("difficulty", Text("Hard"))])
         == Success(EditBody(None, None, None, None, None, Some(Hard)))
  {
    var ok: Body := [Field("difficulty", Text("Hard"))];
    assert Lookup(ok, "title").None? && Lookup(ok, "date").None? && Lookup(ok, "time").None?;
    assert EditTexts(ok) == Success((None, None, None));
    assert Lookup(ok, "type").None? && Lookup(ok, "category").None?;
    assert Lookup(ok, "difficulty") == Some(Text("Hard"));
    assert CheckDifficulty(Text("Hard")) == Success(Hard);
    assert EditChoices(ok) == Success((None, None, Some(Hard)));
    assert FirstUnknown(ok, CARD_KEYS).None?;
  }

  /** An edit body whose one key the schema does not name is refused for that key. */
  lemma EditOneUnknownField()
    ensures ValidateEdit([Field("difficultyy", Text("Hard"))]) == Failure(NotAllowed("difficultyy"))
  {
    var bad: Body := [Field("difficultyy", Text("Hard"))];
    assert Lookup(bad, "title").None? && Lookup(bad, "date").None? && Lookup(bad, "time").None?;
    assert Lookup(bad, "type").None? && Lookup(bad, "category").None? && Lookup(bad, "difficulty").None?;
    assert EditTexts(bad).Success? && EditChoices(bad).Success?;
    assert FirstUnknown(bad, CARD_KEYS) == Some("difficultyy");
  }
}
