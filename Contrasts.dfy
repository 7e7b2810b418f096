/**
 The contrasts that the API's schemas set up on purpose: partial versus full
 embedding, nullable versus optional, string-or-number on the read side versus
 string only on the write side, the two envelope strictness levels, and bare
 arrays versus wrapped lists.
 */
module SchemaContrasts {
  import opened JsonValue
  import opened Zod
  import opened RecipeApi

  // ------------------------------------------------------------ full entities

  /** `{}` and an object whose `id` is a string are not foods; `{id: 1, name: "a"}` is. */
  lemma FoodExamples()
    ensures !Accepts(FoodSchema, EmptyObject())
    ensures !Accepts(FoodSchema, JObject(map["id" := JString("x"), "name" := JString("a")]))
    ensures Accepts(FoodSchema, JObject(map["id" := JNumber(1.0), "name" := JString("a")]))
  {
    FoodAcceptsIff(EmptyObject());
    FoodAcceptsIff(JObject(map["id" := JString("x"), "name" := JString("a")]));
    FoodAcceptsIff(JObject(map["id" := JNumber(1.0), "name" := JString("a")]));
  }

  // ----------------------------------------------------- partial versus full

  /** The partial food and unit embedded in ingredients and shopping items accept
      `{}` and `{name: "Carrot"}`, which the full schemas reject. */
  lemma PartialEmbeddingAcceptsMore()
    ensures
      var carrot := JObject(map["name" := JString("Carrot")]);
      && Accepts(Partial(FoodSchema), EmptyObject()) && !Accepts(FoodSchema, EmptyObject())
      && Accepts(Partial(FoodSchema), carrot) && !Accepts(FoodSchema, carrot)
      && Accepts(Partial(UnitSchema), EmptyObject()) && !Accepts(UnitSchema, EmptyObject())
      && Accepts(Partial(UnitSchema), carrot) && !Accepts(UnitSchema, carrot)
  {
  }

  /** An ingredient whose food is `{}` is accepted. */
  lemma IngredientWithEmptyFood()
    ensures Accepts(IngredientSchema, JObject(map["amount" := JString("2"), "food" := EmptyObject()]))
  {
  }

  // ------------------------------------------------- nullable versus optional

  /** `Recipe.rating` has three accepted states (a number, `null`, absent) and
      rejects a string. The last clause only records that the `null` input and
      the input without `rating` are different values; what parsing them returns
      is not modelled. */
  lemma RecipeRatingThreeStates(m: map<string, Json>, x: real, t: string)
    requires Accepts(RecipeSchema, JObject(m))
    ensures Accepts(RecipeSchema, JObject(m["rating" := JNumber(x)]))
    ensures Accepts(RecipeSchema, JObject(m["rating" := JNull]))
    ensures Accepts(RecipeSchema, JObject(m - {"rating"}))
    ensures !Accepts(RecipeSchema, JObject(m["rating" := JString(t)]))
    ensures JObject(m["rating" := JNull]) != JObject(m - {"rating"})
  {
    RecipeAcceptsIff(JObject(m));
    RecipeAcceptsIff(JObject(m["rating" := JNumber(x)]));
    RecipeAcceptsIff(JObject(m["rating" := JNull]));
    RecipeAcceptsIff(JObject(m - {"rating"}));
    RecipeAcceptsIff(JObject(m["rating" := JString(t)]));
  }

  /** `MealPlan.to_date` has two accepted states (a string, absent); `null` is rejected. */
  lemma MealPlanToDateTwoStates(m: map<string, Json>, x: real, t: string)
    requires Accepts(MealPlanSchema, JObject(m))
    ensures Accepts(MealPlanSchema, JObject(m["to_date" := JString(t)]))
    ensures Accepts(MealPlanSchema, JObject(m - {"to_date"}))
    ensures !Accepts(MealPlanSchema, JObject(m["to_date" := JNull]))
    ensures !Accepts(MealPlanSchema, JObject(m["to_date" := JNumber(x)]))
  {
    MealPlanAcceptsIff(JObject(m));
    MealPlanAcceptsIff(JObject(m["to_date" := JString(t)]));
    MealPlanAcceptsIff(JObject(m - {"to_date"}));
    MealPlanAcceptsIff(JObject(m["to_date" := JNull]));
    MealPlanAcceptsIff(JObject(m["to_date" := JNumber(x)]));
  }

  // ---------------------------------------- string-or-number versus string only

  /** A read-side ingredient takes `amount` as a string or a number; the
      ingredient of a new recipe takes only a string. */
  lemma IngredientAmountReadVersusWrite(m: map<string, Json>, w: map<string, Json>, x: real, t: string)
    requires Accepts(IngredientSchema, JObject(m))
    requires Accepts(CreateRecipeIngredientSchema, JObject(w))
    ensures Accepts(IngredientSchema, JObject(m["amount" := JNumber(x)]))
    ensures Accepts(IngredientSchema, JObject(m["amount" := JString(t)]))
    ensures Accepts(CreateRecipeIngredientSchema, JObject(w["amount" := JString(t)]))
    ensures !Accepts(CreateRecipeIngredientSchema, JObject(w["amount" := JNumber(x)]))
  {
    IngredientAcceptsIff(JObject(m));
    IngredientAcceptsIff(JObject(m["amount" := JNumber(x)]));
    IngredientAcceptsIff(JObject(m["amount" := JString(t)]));
    CreateRecipeIngredientAcceptsIff(JObject(w));
    CreateRecipeIngredientAcceptsIff(JObject(w["amount" := JString(t)]));
    CreateRecipeIngredientAcceptsIff(JObject(w["amount" := JNumber(x)]));
  }

  /** A read-side meal plan takes `servings` as a string or a number; a new meal
      plan takes only a string. */
  lemma ServingsReadVersusWrite(m: map<string, Json>, w: map<string, Json>, x: real, t: string)
    requires Accepts(MealPlanSchema, JObject(m))
    requires Accepts(CreateMealPlanPayloadSchema, JObject(w))
    ensures Accepts(MealPlanSchema, JObject(m["servings" := JNumber(x)]))
    ensures Accepts(MealPlanSchema, JObject(m["servings" := JString(t)]))
    ensures Accepts(CreateMealPlanPayloadSchema, JObject(w["servings" := JString(t)]))
    ensures !Accepts(CreateMealPlanPayloadSchema, JObject(w["servings" := JNumber(x)]))
  {
    MealPlanAcceptsIff(JObject(m));
    MealPlanAcceptsIff(JObject(m["servings" := JNumber(x)]));
    MealPlanAcceptsIff(JObject(m["servings" := JString(t)]));
    CreateMealPlanPayloadAcceptsIff(JObject(w));
    CreateMealPlanPayloadAcceptsIff(JObject(w["servings" := JString(t)]));
    CreateMealPlanPayloadAcceptsIff(JObject(w["servings" := JNumber(x)]));
  }

  /** A shopping-list item takes `amount` as a string or a number; a new shopping
      item takes only a string. */
  lemma ShoppingAmountReadVersusWrite(m: map<string, Json>, w: map<string, Json>, x: real, t: string)
    requires Accepts(ShoppingListItemSchema, JObject(m))
    requires Accepts(AddShoppingItemPayloadSchema, JObject(w))
    ensures Accepts(ShoppingListItemSchema, JObject(m["amount" := JNumber(x)]))
    ensures Accepts(ShoppingListItemSchema, JObject(m["amount" := JString(t)]))
    ensures Accepts(AddShoppingItemPayloadSchema, JObject(w["amount" := JString(t)]))
    ensures !Accepts(AddShoppingItemPayloadSchema, JObject(w["amount" := JNumber(x)]))
  {
    ShoppingListItemAcceptsIff(JObject(m));
    ShoppingListItemAcceptsIff(JObject(m["amount" := JNumber(x)]));
    ShoppingListItemAcceptsIff(JObject(m["amount" := JString(t)]));
    AddShoppingItemPayloadAcceptsIff(JObject(w));
    AddShoppingItemPayloadAcceptsIff(JObject(w["amount" := JString(t)]));
    AddShoppingItemPayloadAcceptsIff(JObject(w["amount" := JNumber(x)]));
  }

  /** A complete new-meal-plan payload: accepted with `servings: "2"`, rejected
      with `servings: 2`. */
  lemma CreateMealPlanServingsExample()
    ensures
      var payload := map[
        "recipe" := JObject(map["id" := JNumber(1.0), "name" := JString("Soup"), "keywords" := JArray([])]),
        "meal_type" := JObject(map["id" := JNumber(2.0), "name" := JString("Dinner")]),
        "from_date" := JString("2024-01-01"),
        "servings" := JString("2")];
      && Accepts(CreateMealPlanPayloadSchema, JObject(payload))
      && !Accepts(CreateMealPlanPayloadSchema, JObject(payload["servings" := JNumber(2.0)]))
  {
    var recipe := JObject(map["id" := JNumber(1.0), "name" := JString("Soup"), "keywords" := JArray([])]);
    var mealType := JObject(map["id" := JNumber(2.0), "name" := JString("Dinner")]);
    var payload := map[
      "recipe" := recipe, "meal_type" := mealType,
      "from_date" := JString("2024-01-01"), "servings" := JString("2")];
    CreateMealPlanRecipeAcceptsIff(recipe);
    MealTypeAcceptsIff(mealType);
    assert Accepts(IdNameSchema, mealType) by {
      assert IdNameSchema == MealTypeSchema;
    }
    CreateMealPlanPayloadAcceptsIff(JObject(payload));
    CreateMealPlanPayloadAcceptsIff(JObject(payload["servings" := JNumber(2.0)]));
  }

  // --------------------------------------------------- envelope strictness

  /** Whatever the fixed recipe envelope accepts, the generic envelope over recipes
      accepts too; `{results: []}` shows the converse fails. */
  lemma RecipeEnvelopeIsStricter(j: Json)
    ensures Accepts(RecipeListResponseSchema, j) ==> Accepts(PaginatedResponseSchema(RecipeSchema), j)
    ensures
      var bare := JObject(map["results" := JArray([])]);
      Accepts(PaginatedResponseSchema(RecipeSchema), bare) && !Accepts(RecipeListResponseSchema, bare)
  {
    var bare := JObject(map["results" := JArray([])]);
    RecipeListAcceptsIff(j);
    PaginatedAcceptsIff(RecipeSchema, j);
    RecipeListAcceptsIff(bare);
    PaginatedAcceptsIff(RecipeSchema, bare);
  }

  /** Both envelopes accept a page whose `next` and `previous` are `null`. */
  lemma EnvelopeNullPages()
    ensures
      var page := JObject(map[
        "count" := JNumber(0.0), "next" := JNull, "previous" := JNull, "results" := JArray([])]);
      Accepts(RecipeListResponseSchema, page) && Accepts(FoodListResponseSchema, page)
  {
  }

  // ----------------------------------------- bare arrays versus wrapped lists

  /** The meal-plan and shopping lists are bare arrays; the food, unit and keyword
      lists, and the recipe list, are envelopes. No value is accepted by a bare-array
      list and by either envelope, whatever the item schemas. */
  lemma ListKindsAreNotInterchangeable(a: Schema, b: Schema, j: Json)
    ensures Accepts(Arr(a), j) ==>
      !Accepts(PaginatedResponseSchema(b), j) && !Accepts(RecipeListResponseSchema, j)
    ensures
      var wrapped := JObject(map["results" := JArray([])]);
      && Accepts(MealPlanListResponseSchema, JArray([]))
      && !Accepts(MealPlanListResponseSchema, wrapped)
      && !Accepts(ShoppingListResponseSchema, wrapped)
      && Accepts(FoodListResponseSchema, wrapped)
      && !Accepts(FoodListResponseSchema, JArray([]))
  {
    var wrapped := JObject(map["results" := JArray([])]);
    assert Accepts(Arr(a), j) ==> j.JArray?;
    assert !Accepts(MealPlanListResponseSchema, wrapped) && !Accepts(ShoppingListResponseSchema, wrapped);
    PaginatedAcceptsIff(FoodSchema, wrapped);
  }

  // --------------------------------------------------------- empty arrays

  /** A recipe stays accepted when its `steps` is `[]`, and a step when its
      `ingredients` is `[]`. */
  lemma ReadListsMayBeEmpty(r: map<string, Json>, s: map<string, Json>)
    requires Accepts(RecipeSchema, JObject(r))
    requires Accepts(StepSchema, JObject(s))
    ensures Accepts(RecipeSchema, JObject(r["steps" := JArray([])]))
    ensures Accepts(StepSchema, JObject(s["ingredients" := JArray([])]))
  {
    RecipeAcceptsIff(JObject(r));
    RecipeAcceptsIff(JObject(r["steps" := JArray([])]));
    StepAcceptsIff(JObject(s));
    StepAcceptsIff(JObject(s["ingredients" := JArray([])]));
  }

  /** A new recipe with no steps, `{name, steps: []}`, is accepted, and so is a
      new step with no ingredients. */
  lemma CreateRecipeMayBeEmpty(name: string, instruction: string)
    ensures Accepts(CreateRecipePayloadSchema,
      JObject(map["name" := JString(name), "steps" := JArray([])]))
    ensures Accepts(CreateRecipeStepSchema,
      JObject(map["instruction" := JString(instruction), "ingredients" := JArray([])]))
  {
  }

  /** A read-side step may leave out `ingredients`; a new recipe's step may not. */
  lemma StepIngredientsReadVersusWrite(m: map<string, Json>, w: map<string, Json>)
    requires Accepts(StepSchema, JObject(m))
    ensures Accepts(StepSchema, JObject(m - {"ingredients"}))
    ensures !Accepts(CreateRecipeStepSchema, JObject(w - {"ingredients"}))
  {
    StepAcceptsIff(JObject(m));
    StepAcceptsIff(JObject(m - {"ingredients"}));
    CreateRecipeStepAcceptsIff(JObject(w - {"ingredients"}));
  }

  // ------------------------------------------------------------ patches

  /** The shopping-item patch accepts `{}`; its `unit` must be a number, so an
      object there is rejected. */
  lemma UpdateShoppingItemPatch(m: map<string, Json>, u: map<string, Json>, x: real)
    requires Accepts(UpdateShoppingItemPayloadSchema, JObject(m))
    ensures Accepts(UpdateShoppingItemPayloadSchema, EmptyObject())
    ensures Accepts(UpdateShoppingItemPayloadSchema, JObject(m["unit" := JNumber(x)]))
    ensures !Accepts(UpdateShoppingItemPayloadSchema, JObject(m["unit" := JObject(u)]))
  {
    UpdateShoppingItemPayloadAcceptsIff(EmptyObject());
    UpdateShoppingItemPayloadAcceptsIff(JObject(m));
    UpdateShoppingItemPayloadAcceptsIff(JObject(m["unit" := JNumber(x)]));
    UpdateShoppingItemPayloadAcceptsIff(JObject(m["unit" := JObject(u)]));
  }

  /** The recipe of a new meal plan accepts a `keywords` array of any values. */
  lemma CreateMealPlanKeywordsAreUnchecked(id: real, name: string, keywords: seq<Json>)
    ensures Accepts(CreateMealPlanRecipeSchema,
      JObject(map["id" := JNumber(id), "name" := JString(name), "keywords" := JArray(keywords)]))
  {
  }

  // ------------------------------------------------------- whole recipes

  /** `{name: "Carrot"}`, a food with a name and no `id`. */
  const Carrot: Json := JObject(map["name" := JString("Carrot")])

  /** `{amount: "2", food: Carrot}`. */
  const CarrotIngredient: Json := JObject(map["amount" := JString("2"), "food" := Carrot])

  /** `{instruction: "Boil", ingredients: [CarrotIngredient]}`. */
  const BoilStep: Json :=
    JObject(map["instruction" := JString("Boil"), "ingredients" := JArray([CarrotIngredient])])

  /** `{id: 1, name: "Soup", steps: [BoilStep]}`. */
  const Soup: map<string, Json> := map["id" := JNumber(1.0), "name" := JString("Soup"), "steps" := JArray([BoilStep])]

  /** An ingredient whose food is only named is accepted. */
  lemma CarrotIngredientAccepted()
    ensures Accepts(IngredientSchema, CarrotIngredient)
  {
  }

  lemma BoilStepAccepted()
    ensures Accepts(StepSchema, BoilStep)
  {
    assert Accepts(Arr(IngredientSchema), JArray([CarrotIngredient])) by {
      CarrotIngredientAccepted();
    }
    StepAcceptsIff(BoilStep);
  }

  /** The soup is a recipe; with `id: "x"`, or without `name`, it is not. The
      second and third clauses only record the input's shape (its ingredient's
      food has a name and no `id`); what parsing returns is not modelled. */
  lemma SoupRecipeExample()
    ensures Accepts(RecipeSchema, JObject(Soup))
    ensures Soup["steps"].items[0].members["ingredients"].items[0].members["food"] == Carrot
    ensures "id" !in Carrot.members && Carrot.members["name"] == JString("Carrot")
    ensures !Accepts(RecipeSchema, JObject(Soup["id" := JString("x")]))
    ensures !Accepts(RecipeSchema, JObject(Soup - {"name"}))
  {
    assert Accepts(Arr(StepSchema), Soup["steps"]) by {
      BoilStepAccepted();
    }
    RecipeAcceptsIff(JObject(Soup));
    assert !Accepts(RecipeSchema, JObject(Soup["id" := JString("x")])) by {
      RecipeAcceptsIff(JObject(Soup["id" := JString("x")]));
    }
    assert !Accepts(RecipeSchema, JObject(Soup - {"name"})) by {
      RecipeAcceptsIff(JObject(Soup - {"name"}));
    }
  }
}
