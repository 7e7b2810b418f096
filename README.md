# Payload schemas of a recipe and meal-planning API client, in Dafny

`scripts/src/schemas.ts` declares, with the zod library, which JSON payloads the
client accepts from and sends to a recipe and meal-planning server. It covers
the entities Food, Unit, Keyword, MealType, Ingredient, Step, Recipe, MealPlan
and ShoppingListItem. It also covers the list responses: a fixed recipe
envelope, a generic paginated envelope, and bare arrays for meal plans and
shopping items. Last come the write payloads, which are stricter than the read
shapes.

This project models that file as a set of accept sets:

- `Json.dfy` (module `JsonValue`): decoded JSON values. Numbers are kept abstract.
- `Zod.dfy` (module `Zod`): the combinators the file uses. These are `z.string()`,
  `z.number()`, `z.boolean()`, `z.unknown()`, `z.array`, `z.union`, `.nullable()`,
  `z.object` with `.optional()` keys, and `.partial()`. `Accepts(schema, json)`
  is the accept predicate. An object schema ignores members it does not name,
  which is zod's default mode. A key the input lacks is accepted when it is
  optional, or when its schema accepts `undefined` (only `z.unknown()` does).
  The module also states stand-alone laws of these combinators, proved for
  every schema: each member is judged on its own, unknown members are ignored,
  `.partial()` widens, and arrays split and concatenate.
- `Schemas.dfy` (module `RecipeApi`): one constant per exported schema.
  `PaginatedResponseSchema` is a function from item schema to envelope schema.
  For every object schema, the inline ones of the write payloads included,
  there is a lemma that spells out its accept set member by member.
- `Contrasts.dfy` (module `SchemaContrasts`): the contrasts the file sets up on
  purpose. These are partial versus full embedding, nullable versus optional,
  and string-or-number reads versus string-only writes. They also cover the two
  envelope strictness levels and bare arrays versus wrapped lists, plus
  worked examples.

The inline objects of the write payloads get names of their own:
`CreateRecipeStepSchema`, `CreateRecipeIngredientSchema`, `NameOnlySchema`,
`CreateMealPlanRecipeSchema` and `IdNameSchema`.

Three facts about the code that the model keeps as written:

- `id`, `servings`, `order` and `rating` are `z.number()`, so non-integers are
  accepted.
- A new recipe's step `instruction` is `z.string()`, so `""` is accepted.
- A recipe's `keywords` is an array.

## Model

The accept predicate (`Zod.Accepts`, `Zod.FieldAccepts`, `Zod.AcceptsMissing`)
and the schema constants are the definitions described above; they carry no
contract of their own, so the table lists the members that state something
about them.

| member | source | states |
|---|---|---|
| Zod.MakeOptional | scripts/src/schemas.ts:82 | the keys of `.partial()`: same number, same names and schemas, each one optional |
| Zod.Partial | scripts/src/schemas.ts:41 | `.partial()` of an object schema is an object schema with the same keys and schemas, all optional |
| Zod.PartialAcceptsIff | scripts/src/schemas.ts:100-101 | a partial object schema accepts exactly the objects whose present members each satisfy their key's schema |
| Zod.PartialAcceptsSuperset | scripts/src/schemas.ts:41-42 | everything the full object schema accepts, its partial accepts too |
| Zod.PartialAcceptsEmptyObject | scripts/src/schemas.ts:100 | the partial of any object schema accepts `{}` |
| Zod.SetMemberIff | scripts/src/schemas.ts:56-64 | setting member `k` to `v` is accepted iff every other key is satisfied and `v` satisfies every key named `k` |
| Zod.RemoveMemberIff | scripts/src/schemas.ts:98-105 | dropping member `k` is accepted iff every other key is satisfied and every key named `k` is optional (or accepts `undefined`) |
| Zod.UnknownMemberIgnored | scripts/src/schemas.ts:7-11 | adding or changing a member no key names does not change acceptance |
| Zod.ArrayConcatIff | scripts/src/schemas.ts:120 | an array schema accepts `[]`, and accepts `a + b` iff it accepts `a` and `b` |
| RecipeApi.FoodAcceptsIff | scripts/src/schemas.ts:7-11 | accepted iff an object with numeric `id`, string `name`, and `description` absent or a string |
| RecipeApi.UnitAcceptsIff | scripts/src/schemas.ts:14-18 | the same accept set as Food: numeric `id`, string `name`, optional string `description` |
| RecipeApi.KeywordAcceptsIff | scripts/src/schemas.ts:21-26 | accepted iff numeric `id`; `name`, `label`, `description` each absent or a string |
| RecipeApi.MealTypeAcceptsIff | scripts/src/schemas.ts:29-32 | accepted iff numeric `id` and string `name` |
| RecipeApi.IngredientAcceptsIff | scripts/src/schemas.ts:39-45 | accepted iff `amount` is present as a string or a number; `food`/`unit` absent or partial Food/Unit; `id` number, `note` string when present |
| RecipeApi.StepAcceptsIff | scripts/src/schemas.ts:48-53 | accepted iff string `instruction`; `ingredients`, when present, an array every element of which is an Ingredient; `id`/`order` numbers when present |
| RecipeApi.RecipeAcceptsIff | scripts/src/schemas.ts:56-64 | accepted iff numeric `id`, string `name`; `rating` absent, `null` or a number; the other keys optional of their types |
| RecipeApi.RecipeListAcceptsIff | scripts/src/schemas.ts:67-72 | accepted iff `count` (number), `next` and `previous` (string or `null`) and `results` (array of recipes) are all present |
| RecipeApi.MealPlanAcceptsIff | scripts/src/schemas.ts:79-88 | accepted iff an object with numeric `id`, string `from_date`, and `servings` a string or a number; `title`, `note` each absent or a string; `recipe` absent or a partial Recipe; `meal_type` absent or a MealType; `to_date` absent or a string |
| RecipeApi.ShoppingListItemAcceptsIff | scripts/src/schemas.ts:98-105 | accepted iff an object with numeric `id` and `amount` a string or a number; `food`/`unit` each absent or a partial Food/Unit; `checked` absent or a boolean; `note` absent or a string |
| RecipeApi.PaginatedAcceptsIff | scripts/src/schemas.ts:115-121 | for any item schema: accepted iff `results` is present and an array of accepted items; `count` absent or a number; `next`/`previous` absent, `null` or a string |
| RecipeApi.CreateRecipePayloadAcceptsIff | scripts/src/schemas.ts:131-143 | accepted iff an object with string `name` and a required `steps` array of new steps; `description` absent or a string; `servings` absent or a number |
| RecipeApi.CreateRecipeStepAcceptsIff | scripts/src/schemas.ts:135-142 | accepted iff string `instruction` and a required `ingredients` array every element of which is a new recipe's ingredient |
| RecipeApi.NameOnlyAcceptsIff | scripts/src/schemas.ts:138-139 | the inline food and unit of a new recipe's ingredient: accepted iff an object with a string `name` |
| RecipeApi.IdNameAcceptsIff | scripts/src/schemas.ts:152-155 | the inline `{id, name}` object equals the MealType schema (lines 29-32), and is accepted iff an object with numeric `id` and string `name`; lines 164-165 use the same shape |
| RecipeApi.CreateRecipeIngredientAcceptsIff | scripts/src/schemas.ts:137-141 | accepted iff `food` and `unit` are objects with a string `name` and `amount` is a string |
| RecipeApi.CreateMealPlanPayloadAcceptsIff | scripts/src/schemas.ts:146-160 | accepted iff an object whose `recipe` is present and accepted by the new meal plan's recipe schema (lines 147-151), whose `meal_type` is present with numeric `id` and string `name` (lines 152-155), with string `from_date` and string `servings`; `title`, `note` each absent or a string |
| RecipeApi.CreateMealPlanRecipeAcceptsIff | scripts/src/schemas.ts:147-151 | accepted iff numeric `id`, string `name` and `keywords` an array (of anything) |
| RecipeApi.AddShoppingItemPayloadAcceptsIff | scripts/src/schemas.ts:163-168 | accepted iff an object whose `food` and `unit` are present objects with numeric `id` and string `name`, with string `amount`; `note` absent or a string |
| RecipeApi.UpdateShoppingItemPayloadAcceptsIff | scripts/src/schemas.ts:171-176 | accepted iff an object whose `checked`, `amount`, `unit`, `note` are each absent or a boolean, string, number, string |
| SchemaContrasts.FoodExamples | scripts/src/schemas.ts:7-11 | `{}` and `{id: "x", name: "a"}` are rejected; `{id: 1, name: "a"}` is accepted |
| SchemaContrasts.PartialEmbeddingAcceptsMore | scripts/src/schemas.ts:41-42 | partial Food and Unit accept `{}` and `{name: "Carrot"}`, which full Food and Unit reject |
| SchemaContrasts.IngredientWithEmptyFood | scripts/src/schemas.ts:41 | an ingredient whose `food` is `{}` is accepted |
| SchemaContrasts.RecipeRatingThreeStates | scripts/src/schemas.ts:61 | from any accepted recipe, `rating` set to a number, to `null`, or removed stays accepted; a string is rejected; the `null` input and the input without `rating` are different values |
| SchemaContrasts.MealPlanToDateTwoStates | scripts/src/schemas.ts:85 | from any accepted meal plan, `to_date` set to a string or removed stays accepted; `null` or a number is rejected |
| SchemaContrasts.IngredientAmountReadVersusWrite | scripts/src/schemas.ts:140 | a read ingredient (line 43) takes `amount` as number or string; a new recipe's ingredient takes a string and rejects a number |
| SchemaContrasts.ServingsReadVersusWrite | scripts/src/schemas.ts:157 | a read meal plan (line 86) takes `servings` as number or string; a new meal plan takes a string and rejects a number |
| SchemaContrasts.ShoppingAmountReadVersusWrite | scripts/src/schemas.ts:166 | a read shopping item (line 102) takes `amount` as number or string; a new shopping item takes a string and rejects a number |
| SchemaContrasts.CreateMealPlanServingsExample | scripts/src/schemas.ts:146-160 | a complete new meal plan is accepted with `servings: "2"` and rejected with `servings: 2` |
| SchemaContrasts.RecipeEnvelopeIsStricter | scripts/src/schemas.ts:67-72 | everything the fixed recipe envelope accepts, the generic envelope over recipes (lines 115-121) accepts; `{results: []}` only the generic one |
| SchemaContrasts.EnvelopeNullPages | scripts/src/schemas.ts:115-121 | a page with `next` and `previous` both `null` is accepted by the recipe and the food envelopes |
| SchemaContrasts.ListKindsAreNotInterchangeable | scripts/src/schemas.ts:91-125 | for any item schemas, no value is accepted by both a bare array and either the generic or the fixed recipe envelope; `{results: []}` is rejected by the meal-plan and shopping lists; `[]` by the food list |
| SchemaContrasts.ReadListsMayBeEmpty | scripts/src/schemas.ts:51-63 | an accepted recipe with `steps: []`, and an accepted step with `ingredients: []`, stay accepted |
| SchemaContrasts.CreateRecipeMayBeEmpty | scripts/src/schemas.ts:131-143 | a new recipe `{name, steps: []}` and a new step with `ingredients: []` are accepted |
| SchemaContrasts.StepIngredientsReadVersusWrite | scripts/src/schemas.ts:135-137 | an accepted read step (line 51) stays accepted without `ingredients`; no new recipe's step without `ingredients` is accepted |
| SchemaContrasts.UpdateShoppingItemPatch | scripts/src/schemas.ts:171-176 | the patch accepts `{}`; `unit` as a number is accepted, as an object rejected |
| SchemaContrasts.CreateMealPlanKeywordsAreUnchecked | scripts/src/schemas.ts:150 | a new meal plan's recipe accepts `keywords` as an array of arbitrary values |
| SchemaContrasts.CarrotIngredientAccepted | scripts/src/schemas.ts:39-45 | `{amount: "2", food: {name: "Carrot"}}` is an ingredient |
| SchemaContrasts.BoilStepAccepted | scripts/src/schemas.ts:48-53 | a step with one such ingredient is accepted |
| SchemaContrasts.SoupRecipeExample | scripts/src/schemas.ts:56-64 | `{id: 1, name: "Soup", steps: [...]}` is a recipe (its ingredient's food has a name and no `id`); with `id: "x"` or without `name` it is rejected |

## Left out

- The output of parsing is not modelled. Zod builds a value with unknown keys
  stripped; the model is a boolean accept predicate only.
- Error messages and issue paths are not modelled. A rejection is `false`,
  with no record of which key failed.
- The order in which union alternatives are tried is not modelled. It changes
  only which error zod reports, never whether a value is accepted.
- Numbers are left out beyond "is a number". `z.number()` also rejects NaN,
  which decoded JSON cannot hold, and may reject ±Infinity (zod 4 does, zod 3
  does not). Decoding an out-of-range literal such as `1e999` gives Infinity,
  which the model reads as a number and accepts. No schema here asks for
  integers.
- Values that only a payload not yet serialised can hold cannot be
  represented: NaN and a member set to `undefined` (which zod treats as
  absent). A payload is modelled as the JSON it serialises to.
- Dates are plain strings: `from_date` and `to_date` have no format check.
- The `z.infer` type aliases are compile-time types with no runtime behaviour.
- The HTTP client, authentication and page-by-page traversal that use these
  schemas are not in this file.
- JSON objects are maps, so duplicate keys in a body are not modelled. Neither
  is JavaScript's lookup of keys inherited through an object's prototype.
