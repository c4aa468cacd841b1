# Card tracker core, modelled in Dafny

This project models the card part of questify-backend, a small task tracker.
An authenticated user owns an ordered list of cards. Each card has a title,
a due date and time, a type, a category, a difficulty and a completion
status. Five HTTP routes create, edit, complete, delete and list cards. Each route
runs its own chain of middleware before its handler, and the first stage
that fails writes the reply:

- `POST /`: authorization, then the create body.
- `PATCH /:cardId`: authorization, then the `cardId` path parameter, then the edit body.
- `PATCH /complete/:cardId` and `DELETE /:cardId`: authorization, then the `cardId` path parameter.
- `GET /`: authorization only.

The model has two halves.

- **Handlers** (`src/card/card.controller.ts`). These change the user's list in place.
  `CardController.User` is a class whose `cards: seq<Card>` field the handler
  methods reassign. The four handlers that change the list are each proved
  equal to a function in `CardList` that gives the new list and the reply;
  `GetAllCards` changes nothing and its contract states its reply directly.
  The properties the handlers promise are proved about those functions.
- **Validators and routes** (`src/card/card.router.ts`). These are pure.
  - `CardPatterns` writes the two regular expressions out as character
    predicates and proves each equal to a numeric description of the strings it accepts.
  - `CardSchemas` models the three schemas as functions. Each returns the typed body
    or the first problem found, and each is proved equal to a declarative
    reading of what it accepts. Each body schema runs in two ordered stages
    (the three string keys, then the three listed keys), which keeps the
    schema's key order.
  - `CardRouter` chains the stages per route and dispatches to the handler methods.

Files: `wrappers.dfy` (Option, Result), `card_types.dfy` (enums, card record,
replies), `card_list.dfy`, `card_controller.dfy`, `card_patterns.dfy`,
`card_schemas.dfy`, `card_router.dfy`.

Behaviour kept as the code has it:

- **Delete with an unknown id removes the last card.** `findIndex` returns -1,
  never `undefined`, so the guard on line 56 never fires. `splice(-1, 1)` then removes
  the last card, or nothing when the list is empty. The reply is 204 either way.
- **Completing a completed card is accepted.** The 403 message `This card is already
  completed` (src/card/card.controller.ts:43) suggests re-completing was meant to be
  refused, but the guard `!card.status` (line 42) only catches a falsy status: an empty,
  missing or null one. A `Complete` card gets through; the handler replies 200 and
  leaves it `Complete`. The model follows the code:
  `ForbiddenOnlyForEmptyStatus`, `CompleteIdempotent`, `WellFormedNeverForbidden`.
- **The route tests send a create body without `time`.** That body is
  `src/card/card.test.ts:50-56`, and the schema requires `time`. Under the schema as
  written, that body is refused with `"time" is required` before `type` is
  examined (`CardSchemas.CreateBodyWithoutTime`). The model follows the schema.
  The tests' body with the bad type `Taskk` (`src/card/card.test.ts:58-64`) lacks
  `time` too, so it is refused with `"time" is required` as well, not with the
  `"type" must be one of [Task, Challenge]` that `src/card/card.test.ts:119-123`
  expects (`CardSchemas.InvalidTypeBodyWithoutTime`).
- **The date check is unanchored and does not check days against months.**
  `2020-02-31` passes, and so does any string with such a date inside it.

## Model

| member | source | states |
|---|---|---|
| CardTypes.ParseCardType | src/helpers/typescript-helpers/enums.ts:18-21 | exactly `Task` and `Challenge` name a card type, and parsing is the inverse of naming |
| CardTypes.ParseCategory | src/helpers/typescript-helpers/enums.ts:23-30 | exactly the six category names are accepted, each read back as its own member |
| CardTypes.ParseDifficulty | src/helpers/typescript-helpers/enums.ts:7-11 | exactly `Easy`, `Normal`, `Hard` are accepted, each read back as its own member |
| CardList.FirstIndex | src/card/card.controller.ts:21-23 | -1 exactly when no card has the id; otherwise a position holding the id with no earlier card holding it |
| CardList.FirstIndexByIds | src/card/card.controller.ts:53-55 | the search result depends only on the sequence of ids, so updates that keep ids keep the found position |
| CardController.FindIndex | src/card/card.controller.ts:21-23 | the left-to-right scan returns the first matching position, or -1 |
| CardController.Find | src/card/card.controller.ts:18-20 | returns nothing exactly when no card has the id; otherwise the first card with it |
| CardList.NewCard | src/card/card.controller.ts:7 | the new card carries the body's six fields and the generated id, and its status is `Incomplete` whatever the body said |
| CardList.CreateOutcome | src/card/card.controller.ts:5-13 | one card appended at the end, earlier cards unchanged, ids extended by the new id, reply 201 with the new card; unique ids and known statuses are kept when the id is fresh |
| CardController.User.CreateCard | src/card/card.controller.ts:5-13 | pushes onto `cards`, which then equals `CreateOutcome` of the old list, and replies as it does |
| CardList.Merge | src/card/card.controller.ts:27 | each field given in the edit body overrides; each absent field, the id and the status keep their stored values |
| CardList.EditOutcome | src/card/card.controller.ts:15-31 | unknown id: 400 `Invalid 'cardId'`, list unchanged. Known id: only the first matching position becomes its merge, so length, ids and every other position stay; reply 200 with the edited card |
| CardController.User.EditCard | src/card/card.controller.ts:15-31 | find, findIndex and indexed assignment leave `cards` and the reply equal to `EditOutcome` |
| CardList.CompleteOutcome | src/card/card.controller.ts:33-48 | unknown id: 400 and no change. Empty status: 403 and no change. Otherwise only that card's status becomes `Complete`; reply 200 with it |
| CardController.User.ConfirmCompletedCard | src/card/card.controller.ts:33-48 | the status write at the found card leaves `cards` and the reply equal to `CompleteOutcome` |
| CardList.CompleteIdempotent | src/card/card.controller.ts:42-45 | running the completion twice gives the same list and the same reply as running it once |
| CardList.ForbiddenOnlyForEmptyStatus | src/card/card.controller.ts:42-44 | the reply is 403 exactly when the found card's status is empty; a card already `Complete` gets 200 and stays as it was |
| CardList.WellFormedNeverForbidden | src/card/card.controller.ts:42-44 | on a list whose statuses are all `Incomplete` or `Complete` the 403 branch is never taken |
| CardList.SpliceOne | src/card/card.controller.ts:59 | `splice(start, 1)`: a start inside the list removes that element; -1 removes the last; an empty list stays empty |
| CardList.DeleteOutcome | src/card/card.controller.ts:50-62 | reply always 204. Known id: the first card with it is removed and the rest keep their order. Unknown id: the last card is removed, or nothing from an empty list |
| CardController.User.DeleteCard | src/card/card.controller.ts:50-62 | findIndex then splice leave `cards` and the reply equal to `DeleteOutcome` |
| CardList.DeleteRemovesExactlyThatCard | src/card/card.controller.ts:53-59 | with unique ids, deleting a present id shortens the list by one, the id is gone, and the multiset of cards loses exactly that card |
| CardList.DeletePreservesWellFormed | src/card/card.controller.ts:59 | deleting keeps ids unique and statuses known, whether the id was present or not |
| CardList.RemovePreservesWellFormed | src/card/card.controller.ts:59 | removing any one position keeps ids unique and statuses known |
| CardController.User.GetAllCards | src/card/card.controller.ts:64-67 | reply 200 with the whole list in order; nothing changes |
| CardPatterns.TimeMatchesIff | src/card/card.router.ts:36-37 | the time pattern accepts exactly an hour 0-23 in one or two digits, a colon and a minute 00-59 in two digits, with nothing before or after |
| CardPatterns.TimeMatches | src/card/card.router.ts:36-37 | a match spans the whole string: four or five characters with the colon third from the end |
| CardPatterns.TimeExamples | src/card/card.router.ts:36 | `9:05`, `09:05` and `23:59` pass; `24:00`, `12:5`, `12:60` and a trailing space fail |
| CardPatterns.DatePatternAtIff | src/card/card.router.ts:24 | at one position, the date pattern matches exactly four digits, `-`, a month 01-12, `-`, a day 01-31 |
| CardPatterns.ScanDate | src/card/card.router.ts:24-25 | the scan from `i` succeeds exactly when the pattern matches at some start position at or after `i` that leaves room for ten characters |
| CardPatterns.DateMatches | src/card/card.router.ts:24-25 | `test` succeeds exactly when the pattern matches at some position of the string |
| CardPatterns.ScanDateIff | src/card/card.router.ts:24-25 | trying each start position from `i` finds a match exactly when a date begins at some position at or after `i` |
| CardPatterns.DateMatchesIff | src/card/card.router.ts:24-25 | the unanchored test passes exactly when a date of that form occurs anywhere in the string |
| CardPatterns.NoDayOfMonthCheck | src/card/card.router.ts:24 | `2020-02-31` is accepted |
| CardPatterns.SurroundingTextAccepted | src/card/card.router.ts:24-25 | a date with other characters before and after it is accepted |
| CardSchemas.Lookup | src/card/card.router.ts:20 | absent exactly when no field has the key; otherwise a value the body gives for that key |
| CardSchemas.FirstUnknown | src/card/card.router.ts:62 | nothing exactly when every body key is a schema key; otherwise the first body key, in body order, that the schema does not name |
| CardSchemas.CheckString | src/card/card.router.ts:21 | a non-empty string passes unchanged; otherwise the problem names the key |
| CardSchemas.CheckTitle | src/card/card.router.ts:21 | passes exactly strings of length 2 to 100, unchanged |
| CardSchemas.CheckDate | src/card/card.router.ts:22-33 | passes exactly strings containing a date, unchanged; otherwise the problem is about `date`, and a non-empty string without a date gets `Invalid 'date'. Please, use YYYY-MM-DD string format` |
| CardSchemas.CheckTime | src/card/card.router.ts:34-45 | passes exactly the times of the reference reading, unchanged; otherwise the problem is about `time`, and a non-empty string that is not a time gets `Invalid 'time'. Please, use HH:MM string format` |
| CardSchemas.CheckType | src/card/card.router.ts:46 | passes exactly `Task` or `Challenge`; otherwise `"type" must be one of` the listed values |
| CardSchemas.CheckCategory | src/card/card.router.ts:47-56 | passes exactly the six listed categories; otherwise names the list in schema order |
| CardSchemas.CheckDifficulty | src/card/card.router.ts:57-59 | passes exactly `Easy`, `Normal`, `Hard`; otherwise names the list |
| CardSchemas.Describe | src/card/card.router.ts:20-112 | every reply text opens by naming its key: the validator's own texts with the key in quotes, the custom date, time and `cardId` texts with `Invalid '<key>'.` |
| CardSchemas.RequiredKey | src/card/card.router.ts:20-60 | a `.required()` key that is absent is reported as required; when it passes, its value was present and passed its check |
| CardSchemas.OptionalKey | src/card/card.router.ts:62-98 | a key without `.required()` that is absent passes as absent; when present, it passes or fails exactly as its check does |
| CardSchemas.RequiredKeyMeets | src/card/card.router.ts:20-60 | with a check that passes exactly the acceptable values, a required key passes exactly when present and acceptable, and a failure is about that key |
| CardSchemas.OptionalKeyMeets | src/card/card.router.ts:62-98 | with such a check, an optional key passes exactly when absent or acceptable, and a failure is about that key |
| CardSchemas.CreateTexts | src/card/card.router.ts:21-45 | title, date and time in that order: passes exactly when all three are present and acceptable, handing on the strings sent |
| CardSchemas.CreateChoices | src/card/card.router.ts:46-59 | type, category and difficulty in that order: passes exactly when all three are present and listed, handing on the members named |
| CardSchemas.EditTexts | src/card/card.router.ts:63-83 | title, date and time: passes exactly when each given one is acceptable, keeps absent ones absent, and a failure is about the first that fails |
| CardSchemas.EditChoices | src/card/card.router.ts:84-97 | type, category and difficulty: passes exactly when each given one is listed, keeps absent ones absent, and a failure is about the first that fails |
| CardSchemas.ValidateCreate | src/card/card.router.ts:20-60 | succeeds exactly when all six keys are present and acceptable and no other key appears; the result carries the strings the client sent |
| CardSchemas.ValidateEdit | src/card/card.router.ts:62-98 | succeeds exactly when every key given is acceptable and no other key appears; absent keys stay absent in the result |
| CardSchemas.CreateReportsFirstFailingKey | src/card/card.router.ts:20-60 | a refused create body is answered with a problem about the first failing schema key in declaration order; a missing key is reported as required |
| CardSchemas.EditReportsFirstFailingKey | src/card/card.router.ts:62-98 | a refused edit body is answered with a problem about the first given schema key that fails |
| CardSchemas.EditRejectsUnknownKey | src/card/card.router.ts:62-98 | when all named keys pass, an extra key is refused with `"<key>" is not allowed`, naming the first extra key |
| CardSchemas.TypeMessage | src/card/card.router.ts:46 | a bad type is answered with `"type" must be one of [Task, Challenge]` |
| CardSchemas.CreateBodyWithoutTime | src/card/card.test.ts:50-56 | the tests' create body, which has no `time`, is refused as missing `time` |
| CardSchemas.InvalidTypeBodyWithoutTime | src/card/card.test.ts:58-64 | the tests' body with type `Taskk` also has no `time` and is refused as missing `time`, although `Taskk` alone fails the type check |
| CardSchemas.TimeRequiredMessage | src/card/card.router.ts:45 | a missing `time` is answered with `"time" is required` |
| CardSchemas.MissingTimeRefused | src/card/card.router.ts:34-45 | a create body whose title and date pass but which has no `time` is refused as missing `time`, whatever its other keys |
| CardSchemas.EditOneField | src/card/card.test.ts:161-163 | `{difficulty: Hard}` validates to an edit of difficulty only, every other field left out |
| CardSchemas.EditOneUnknownField | src/card/card.test.ts:165-167 | `{difficultyy: Hard}` is refused as `NotAllowed("difficultyy")`, whose text is `"difficultyy" is not allowed` |
| CardSchemas.CheckCardId | src/card/card.router.ts:100-112 | passes exactly a non-empty id that the ObjectId check accepts; a non-empty id it refuses gets `Invalid 'cardId'. Must be a MongoDB ObjectId` |
| CardRouter.Gate | src/card/card.router.ts:116-141 | a denied authorization decides the reply before anything else; a bad `cardId` is reported before the body is looked at; a refused body gets the 400 reply with the body validator's first problem; a request reaches its handler exactly when authorization and every validation stage of its route pass |
| CardRouter.BadRequest | src/card/card.router.ts:119 | a failed validation stage replies 400 with a message that names the key at fault |
| CardRouter.Apply | src/card/card.router.ts:116-141 | only creating adds an id (the fresh one, at the end); editing, completing and listing keep the ids; deleting removes one card from a non-empty list; listing replies 200 |
| CardRouter.RunHandler | src/card/card.router.ts:116-141 | running the handler a route ends with leaves the list and the reply equal to `Apply` |
| CardRouter.Serve | src/card/card.router.ts:116-141 | a rejected request leaves the cards unchanged and gets the stage's reply; an accepted one changes the cards and replies as its handler's outcome |
| CardRouter.RequestsPreserveWellFormed | src/card/card.controller.ts:5-67 | every handler keeps ids unique and statuses known, given a fresh id for a new card |

## Left out

- `authorize` is not part of this model: its token and session checks are out of scope. A route receives only its verdict: either the request goes through, or `authorize` supplies the reply.
- `mongoose.Types.ObjectId.isValid` is a library call. The model takes it as a function parameter `isObjectId`.
- Id generation is not modelled. A new card's id is a parameter (`freshId`). Uniqueness of ids is a precondition of `RequestsPreserveWellFormed`, not a fact the model proves.
- Persistence (`save`) is not modelled. Nor are a failed save and the 500 reply that `tryCatchWrapper` would send; the model only has the updated list.
- Mongoose schema casting is not modelled. `src/REST-entities/user/user.model.ts` lists no `time` or `category` field, and the store would drop them; the model keeps every field the body gives.
- The `validate` middleware is not part of this model. The model assumes it replies 400 with the message of the first problem. It also assumes the validator's defaults: schema keys in declaration order, the first problem stops validation, and extra keys are reported after all named keys.
- The message texts for a missing key, a non-string value, an empty string and a length bound are the validator library's own wording. They do not appear in the repository.
- JSON values are reduced to "a string" or "something else". Object key order is taken as the body's field order.
- Title length is counted in characters. The code counts UTF-16 code units, so titles with characters outside the Basic Multilingual Plane can differ.
- `find` returns the card object itself, and `card.status = COMPLETE` writes through that reference. The model writes the new status at the found position, which has the same effect on the list. Object identity is not modelled.
- `CardController.User` has no `email` or `passwordHash`: no card handler reads them.
- The `req.user` optional chaining and the `cardIndex === undefined` guards (lines 24 and 56) are not modelled. `authorize` always attaches a user, so these never short-circuit.
- `src/REST-entities/session/session.model.ts` and `src/helpers/typescript-helpers/types.ts` are type and database glue with no card logic. They are not part of this model.
- A card's status is a string. A missing or null status, which `!card.status` also catches, is represented as the empty string `""`.
- Requests are modelled one at a time. Two requests for the same user that interleave across `await ...save()` (src/card/card.controller.ts:9, 29, 46, 60) are not modelled.
