/**
 The payload schemas of the recipe and meal-planning API client
 (scripts/src/schemas.ts), one constant per exported schema, and for each one
 its accept set spelled out member by member.

 Members an object schema does not name are ignored (zod's default object
 mode); every lemma below is about the members a schema names.
 */
module RecipeApi {
  import opened JsonValue
  import opened Zod

  // ---------------------------------------------------------------- base types

  const FoodSchema: Schema := Obj([Req("id", Num), Req("name", Str), Opt("description", Str)])

  const UnitSchema: Schema := Obj([Req("id", Num), Req("name", Str), Opt("description", Str)])

  const KeywordSchema: Schema :=
    Obj([Req("id", Num), Opt("name", Str), Opt("label", Str), Opt("description", Str)])

  const MealTypeSchema: Schema := Obj([Req("id", Num), Req("name", Str)])

  // -------------------------------------------------------------- recipe types

  const IngredientSchema: Schema := Obj([
    Opt("id", Num),
    Opt("food", Partial(FoodSchema)),
    Opt("unit", Partial(UnitSchema)),
    Req("amount", StrOrNum()),
    Opt("note", Str)
  ])

  const StepSchema: Schema := Obj([
    Opt("id", Num),
    Req("instruction", Str),
    Opt("ingredients", Arr(IngredientSchema)),
    Opt("order", Num)
  ])

  const RecipeSchema: Schema := Obj([
    Req("id", Num),
    Req("name", Str),
    Opt("description", Str),
    Opt("servings", Num),
    Opt("rating", Nullable(Num)),
    Opt("keywords", Arr(KeywordSchema)),
    Opt("steps", Arr(StepSchema))
  ])

  const RecipeListResponseSchema: Schema := Obj([
    Req("count", Num),
    Req("next", Nullable(Str)),
    Req("previous", Nullable(Str)),
    Req("results", Arr(RecipeSchema))
  ])

  // ----------------------------------------------------------- meal plan types

  const MealPlanSchema: Schema := Obj([
    Req("id", Num),
    Opt("title", Str),
    Opt("recipe", Partial(RecipeSchema)),
    Opt("meal_type", MealTypeSchema),
    Req("from_date", Str),
    Opt("to_date", Str),
    Req("servings", StrOrNum()),
    Opt("note", Str)
  ])

  const MealPlanListResponseSchema: Schema := Arr(MealPlanSchema)

  // ------------------------------------------------------- shopping list types

  const ShoppingListItemSchema: Schema := Obj([
    Req("id", Num),
    Opt("food", Partial(FoodSchema)),
    Opt("unit", Partial(UnitSchema)),
    Req("amount", StrOrNum()),
    Opt("checked", Bool),
    Opt("note", Str)
  ])

  const ShoppingListResponseSchema: Schema := Arr(ShoppingListItemSchema)

  // ------------------------------------------------ paginated list (generic)

  /** The generic envelope: only `results` is required. */
  function PaginatedResponseSchema(item: Schema): Schema {
    Obj([
      Opt("count", Num),
      Opt("next", Nullable(Str)),
      Opt("previous", Nullable(Str)),
      Req("results", Arr(item))
    ])
  }

  const FoodListResponseSchema: Schema := PaginatedResponseSchema(FoodSchema)
  const UnitListResponseSchema: Schema := PaginatedResponseSchema(UnitSchema)
  const KeywordListResponseSchema: Schema := PaginatedResponseSchema(KeywordSchema)

  // --------------------------------------------------------- request payloads

  /** `{ name: string }`, the food and the unit of a new recipe's ingredient. */
  const NameOnlySchema: Schema := Obj([Req("name", Str)])

  /** `{ id: number, name: string }`, written inline for the meal type of a new
      meal plan and for the food and unit of a new shopping item. */
  const IdNameSchema: Schema := Obj([Req("id", Num), Req("name", Str)])

  const CreateRecipeIngredientSchema: Schema := Obj([
    Req("food", NameOnlySchema),
    Req("unit", NameOnlySchema),
    Req("amount", Str)
  ])

  const CreateRecipeStepSchema: Schema := Obj([
    Req("instruction", Str),
    Req("ingredients", Arr(CreateRecipeIngredientSchema))
  ])

  const CreateRecipePayloadSchema: Schema := Obj([
    Req("name", Str),
    Opt("description", Str),
    Opt("servings", Num),
    Req("steps", Arr(CreateRecipeStepSchema))
  ])

  const CreateMealPlanRecipeSchema: Schema := Obj([
    Req("id", Num),
    Req("name", Str),
    Req("keywords", Arr(Unknown))
  ])

  const CreateMealPlanPayloadSchema: Schema := Obj([
    Req("recipe", CreateMealPlanRecipeSchema),
    Req("meal_type", IdNameSchema),
    Req("from_date", Str),
    Req("servings", Str),
    Opt("title", Str),
    Opt("note", Str)
  ])

  const AddShoppingItemPayloadSchema: Schema := Obj([
    Req("food", IdNameSchema),
    Req("unit", IdNameSchema),
    Req("amount", Str),
    Opt("note", Str)
  ])

  const UpdateShoppingItemPayloadSchema: Schema := Obj([
    Opt("checked", Bool),
    Opt("amount", Str),
    Opt("unit", Num),
    Opt("note", Str)
  ])

  // ------------------------------------------------------------- accept sets

  /** Member `k` is present and of the given schema. */
  predicate Has(m: map<string, Json>, k: string, s: Schema) {
    k in m && Accepts(s, m[k])
  }

  /** Member `k` is absent, or present and of the given schema. */
  predicate MayHave(m: map<string, Json>, k: string, s: Schema) {
    k in m ==> Accepts(s, m[k])
  }

  lemma FoodAcceptsIff(j: Json)
    ensures Accepts(FoodSchema, j) <==>
      && j.JObject?
      && "id" in j.members && j.members["id"].JNumber?
      && "name" in j.members && j.members["name"].JString?
      && ("description" in j.members ==> j.members["description"].JString?)
  {
    if j.JObject? && Accepts(FoodSchema, j) {
      var fs := FoodSchema.fields;
      assert FieldAccepts(fs[0], j.members) && FieldAccepts(fs[1], j.members);
      assert FieldAccepts(fs[2], j.members);
    }
  }

  lemma UnitAcceptsIff(j: Json)
    ensures Accepts(UnitSchema, j) <==>
      && j.JObject?
      && "id" in j.members && j.members["id"].JNumber?
      && "name" in j.members && j.members["name"].JString?
      && ("description" in j.members ==> j.members["description"].JString?)
  {
    FoodAcceptsIff(j);
  }

  lemma KeywordAcceptsIff(j: Json)
    ensures Accepts(KeywordSchema, j) <==>
      && j.JObject?
      && "id" in j.members && j.members["id"].JNumber?
      && ("name" in j.members ==> j.members["name"].JString?)
      && ("label" in j.members ==> j.members["label"].JString?)
      && ("description" in j.members ==> j.members["description"].JString?)
  {
    if j.JObject? && Accepts(KeywordSchema, j) {
      var fs := KeywordSchema.fields;
      assert FieldAccepts(fs[0], j.members) && FieldAccepts(fs[1], j.members);
      assert FieldAccepts(fs[2], j.members) && FieldAccepts(fs[3], j.members);
    }
  }

  lemma MealTypeAcceptsIff(j: Json)
    ensures Accepts(MealTypeSchema, j) <==>
      && j.JObject?
      && "id" in j.members && j.members["id"].JNumber?
      && "name" in j.members && j.members["name"].JString?
  {
    if j.JObject? && Accepts(MealTypeSchema, j) {
      var fs := MealTypeSchema.fields;
      assert FieldAccepts(fs[0], j.members) && FieldAccepts(fs[1], j.members);
    }
  }

  lemma IngredientAcceptsIff(j: Json)
    ensures Accepts(IngredientSchema, j) <==>
      && j.JObject?
      && MayHave(j.members, "id", Num)
      && MayHave(j.members, "food", Partial(FoodSchema))
      && MayHave(j.members, "unit", Partial(UnitSchema))
      && "amount" in j.members && (j.members["amount"].JString? || j.members["amount"].JNumber?)
      && MayHave(j.members, "note", Str)
  {
    if j.JObject? && Accepts(IngredientSchema, j) {
      var fs := IngredientSchema.fields;
      assert FieldAccepts(fs[0], j.members) && FieldAccepts(fs[1], j.members);
      assert FieldAccepts(fs[2], j.members) && FieldAccepts(fs[3], j.members);
      assert FieldAccepts(fs[4], j.members);
    }
  }

  lemma StepAcceptsIff(j: Json)
    ensures Accepts(StepSchema, j) <==>
      && j.JObject?
      && MayHave(j.members, "id", Num)
      && "instruction" in j.members && j.members["instruction"].JString?
      && ("ingredients" in j.members ==>
            var v := j.members["ingredients"];
            v.JArray? && forall i :: 0 <= i < |v.items| ==> Accepts(IngredientSchema, v.items[i]))
      && MayHave(j.members, "order", Num)
  {
    if j.JObject? {
      var fs := StepSchema.fields;
      assert fs[2] == Opt("ingredients", Arr(IngredientSchema));
      if "ingredients" in j.members {
        var v := j.members["ingredients"];
        assert Accepts(Arr(IngredientSchema), v) <==>
          v.JArray? && forall i :: 0 <= i < |v.items| ==> Accepts(IngredientSchema, v.items[i]);
      }
      if Accepts(StepSchema, j) {
        assert FieldAccepts(fs[0], j.members) && FieldAccepts(fs[1], j.members);
        assert FieldAccepts(fs[2], j.members) && FieldAccepts(fs[3], j.members);
      }
    }
  }

  lemma RecipeAcceptsIff(j: Json)
    ensures Accepts(RecipeSchema, j) <==>
      && j.JObject?
      && "id" in j.members && j.members["id"].JNumber?
      && "name" in j.members && j.members["name"].JString?
      && MayHave(j.members, "description", Str)
      && MayHave(j.members, "servings", Num)
      && ("rating" in j.members ==> j.members["rating"].JNull? || j.members["rating"].JNumber?)
      && MayHave(j.members, "keywords", Arr(KeywordSchema))
      && MayHave(j.members, "steps", Arr(StepSchema))
  {
    if j.JObject? && Accepts(RecipeSchema, j) {
      var fs := RecipeSchema.fields;
      assert FieldAccepts(fs[0], j.members) && FieldAccepts(fs[1], j.members);
      assert FieldAccepts(fs[2], j.members) && FieldAccepts(fs[3], j.members);
      assert FieldAccepts(fs[4], j.members) && FieldAccepts(fs[5], j.members);
      assert FieldAccepts(fs[6], j.members);
    }
  }

  /** The fixed recipe envelope: all four members present; `next` and `previous`
      may be `null`. */
  lemma RecipeListAcceptsIff(j: Json)
    ensures Accepts(RecipeListResponseSchema, j) <==>
      && j.JObject?
      && "count" in j.members && j.members["count"].JNumber?
      && "next" in j.members && (j.members["next"].JNull? || j.members["next"].JString?)
      && "previous" in j.members && (j.members["previous"].JNull? || j.members["previous"].JString?)
      && Has(j.members, "results", Arr(RecipeSchema))
  {
    if j.JObject? && Accepts(RecipeListResponseSchema, j) {
      var fs := RecipeListResponseSchema.fields;
      assert FieldAccepts(fs[0], j.members) && FieldAccepts(fs[1], j.members);
      assert FieldAccepts(fs[2], j.members) && FieldAccepts(fs[3], j.members);
    }
  }

  lemma MealPlanAcceptsIff(j: Json)
    ensures Accepts(MealPlanSchema, j) <==>
      && j.JObject?
      && "id" in j.members && j.members["id"].JNumber?
      && MayHave(j.members, "title", Str)
      && MayHave(j.members, "recipe", Partial(RecipeSchema))
      && MayHave(j.members, "meal_type", MealTypeSchema)
      && "from_date" in j.members && j.members["from_date"].JString?
      && ("to_date" in j.members ==> j.members["to_date"].JString?)
      && "servings" in j.members && (j.members["servings"].JString? || j.members["servings"].JNumber?)
      && MayHave(j.members, "note", Str)
  {
    if j.JObject? && Accepts(MealPlanSchema, j) {
      var fs := MealPlanSchema.fields;
      assert FieldAccepts(fs[0], j.members) && FieldAccepts(fs[1], j.members);
      assert FieldAccepts(fs[2], j.members) && FieldAccepts(fs[3], j.members);
      assert FieldAccepts(fs[4], j.members) && FieldAccepts(fs[5], j.members);
      assert FieldAccepts(fs[6], j.members) && FieldAccepts(fs[7], j.members);
    }
  }

  lemma ShoppingListItemAcceptsIff(j: Json)
    ensures Accepts(ShoppingListItemSchema, j) <==>
      && j.JObject?
      && "id" in j.members && j.members["id"].JNumber?
      && MayHave(j.members, "food", Partial(FoodSchema))
      && MayHave(j.members, "unit", Partial(UnitSchema))
      && "amount" in j.members && (j.members["amount"].JString? || j.members["amount"].JNumber?)
      && MayHave(j.members, "checked", Bool)
      && MayHave(j.members, "note", Str)
  {
    if j.JObject? && Accepts(ShoppingListItemSchema, j) {
      var fs := ShoppingListItemSchema.fields;
      assert FieldAccepts(fs[0], j.members) && FieldAccepts(fs[1], j.members);
      assert FieldAccepts(fs[2], j.members) && FieldAccepts(fs[3], j.members);
      assert FieldAccepts(fs[4], j.members) && FieldAccepts(fs[5], j.members);
    }
  }

  /** The generic envelope: `results` must be an array of accepted items; `count`,
      `next` and `previous` may be absent, and `next`/`previous` may be `null`. */
  lemma PaginatedAcceptsIff(item: Schema, j: Json)
    ensures Accepts(PaginatedResponseSchema(item), j) <==>
      && j.JObject?
      && ("count" in j.members ==> j.members["count"].JNumber?)
      && ("next" in j.members ==> j.members["next"].JNull? || j.members["next"].JString?)
      && ("previous" in j.members ==> j.members["previous"].JNull? || j.members["previous"].JString?)
      && "results" in j.members
      && var v := j.members["results"];
         v.JArray? && forall i :: 0 <= i < |v.items| ==> Accepts(item, v.items[i])
  {
    if j.JObject? {
      var fs := PaginatedResponseSchema(item).fields;
      assert fs[3] == Req("results", Arr(item));
      if "results" in j.members {
        var v := j.members["results"];
        assert Accepts(Arr(item), v) <==>
          v.JArray? && forall i :: 0 <= i < |v.items| ==> Accepts(item, v.items[i]);
      }
      if Accepts(PaginatedResponseSchema(item), j) {
        assert FieldAccepts(fs[0], j.members) && FieldAccepts(fs[1], j.members);
        assert FieldAccepts(fs[2], j.members) && FieldAccepts(fs[3], j.members);
      }
    }
  }

  lemma CreateRecipePayloadAcceptsIff(j: Json)
    ensures Accepts(CreateRecipePayloadSchema, j) <==>
      && j.JObject?
      && "name" in j.members && j.members["name"].JString?
      && MayHave(j.members, "description", Str)
      && MayHave(j.members, "servings", Num)
      && Has(j.members, "steps", Arr(CreateRecipeStepSchema))
  {
    if j.JObject? && Accepts(CreateRecipePayloadSchema, j) {
      var fs := CreateRecipePayloadSchema.fields;
      assert FieldAccepts(fs[0], j.members) && FieldAccepts(fs[1], j.members);
      assert FieldAccepts(fs[2], j.members) && FieldAccepts(fs[3], j.members);
    }
  }

  /** The food or unit of a new recipe's ingredient: an object with a string `name`. */
  lemma NameOnlyAcceptsIff(j: Json)
    ensures Accepts(NameOnlySchema, j) <==>
      j.JObject? && "name" in j.members && j.members["name"].JString?
  {
    if j.JObject? && Accepts(NameOnlySchema, j) {
      assert FieldAccepts(NameOnlySchema.fields[0], j.members);
    }
  }

  /** The inline `{ id, name }` object has the same accept set as MealType: a
      numeric `id` and a string `name`. */
  lemma IdNameAcceptsIff(j: Json)
    ensures IdNameSchema == MealTypeSchema
    ensures Accepts(IdNameSchema, j) <==>
      && j.JObject?
      && "id" in j.members && j.members["id"].JNumber?
      && "name" in j.members && j.members["name"].JString?
  {
    MealTypeAcceptsIff(j);
  }

  /** A new recipe's ingredient: food and unit each carry a string `name`, and
      `amount` is a string. */
  lemma CreateRecipeIngredientAcceptsIff(j: Json)
    ensures Accepts(CreateRecipeIngredientSchema, j) <==>
      && j.JObject?
      && "food" in j.members && j.members["food"].JObject?
      && "name" in j.members["food"].members && j.members["food"].members["name"].JString?
      && "unit" in j.members && j.members["unit"].JObject?
      && "name" in j.members["unit"].members && j.members["unit"].members["name"].JString?
      && "amount" in j.members && j.members["amount"].JString?
  {
    if j.JObject? {
      var fs := CreateRecipeIngredientSchema.fields;
      if Accepts(CreateRecipeIngredientSchema, j) {
        assert FieldAccepts(fs[0], j.members) && FieldAccepts(fs[1], j.members);
        assert FieldAccepts(fs[2], j.members);
        assert FieldAccepts(NameOnlySchema.fields[0], j.members["food"].members);
        assert FieldAccepts(NameOnlySchema.fields[0], j.members["unit"].members);
      }
    }
  }

  /** A new recipe's step: a string `instruction` and a required `ingredients`
      array every element of which is a new recipe's ingredient. */
  lemma CreateRecipeStepAcceptsIff(j: Json)
    ensures Accepts(CreateRecipeStepSchema, j) <==>
      && j.JObject?
      && "instruction" in j.members && j.members["instruction"].JString?
      && "ingredients" in j.members
      && var v := j.members["ingredients"];
         v.JArray? && forall i :: 0 <= i < |v.items| ==> Accepts(CreateRecipeIngredientSchema, v.items[i])
  {
    if j.JObject? {
      var fs := CreateRecipeStepSchema.fields;
      assert fs[1] == Req("ingredients", Arr(CreateRecipeIngredientSchema));
      if "ingredients" in j.members {
        var v := j.members["ingredients"];
        assert Accepts(Arr(CreateRecipeIngredientSchema), v) <==>
          v.JArray? && forall i :: 0 <= i < |v.items| ==> Accepts(CreateRecipeIngredientSchema, v.items[i]);
      }
      if Accepts(CreateRecipeStepSchema, j) {
        assert FieldAccepts(fs[0], j.members) && FieldAccepts(fs[1], j.members);
      }
    }
  }

  lemma CreateMealPlanPayloadAcceptsIff(j: Json)
    ensures Accepts(CreateMealPlanPayloadSchema, j) <==>
      && j.JObject?
      && Has(j.members, "recipe", CreateMealPlanRecipeSchema)
      && Has(j.members, "meal_type", IdNameSchema)
      && "from_date" in j.members && j.members["from_date"].JString?
      && "servings" in j.members && j.members["servings"].JString?
      && MayHave(j.members, "title", Str)
      && MayHave(j.members, "note", Str)
  {
    if j.JObject? && Accepts(CreateMealPlanPayloadSchema, j) {
      var fs := CreateMealPlanPayloadSchema.fields;
      assert FieldAccepts(fs[0], j.members) && FieldAccepts(fs[1], j.members);
      assert FieldAccepts(fs[2], j.members) && FieldAccepts(fs[3], j.members);
      assert FieldAccepts(fs[4], j.members) && FieldAccepts(fs[5], j.members);
    }
  }

  /** The recipe of a new meal plan: `id`, `name` and a `keywords` array whose
      elements may be anything. */
  lemma CreateMealPlanRecipeAcceptsIff(j: Json)
    ensures Accepts(CreateMealPlanRecipeSchema, j) <==>
      && j.JObject?
      && "id" in j.members && j.members["id"].JNumber?
      && "name" in j.members && j.members["name"].JString?
      && "keywords" in j.members && j.members["keywords"].JArray?
  {
    if j.JObject? && Accepts(CreateMealPlanRecipeSchema, j) {
      var fs := CreateMealPlanRecipeSchema.fields;
      assert FieldAccepts(fs[0], j.members) && FieldAccepts(fs[1], j.members);
      assert FieldAccepts(fs[2], j.members);
    }
  }

  lemma AddShoppingItemPayloadAcceptsIff(j: Json)
    ensures Accepts(AddShoppingItemPayloadSchema, j) <==>
      && j.JObject?
      && Has(j.members, "food", IdNameSchema)
      && Has(j.members, "unit", IdNameSchema)
      && "amount" in j.members && j.members["amount"].JString?
      && MayHave(j.members, "note", Str)
  {
    if j.JObject? && Accepts(AddShoppingItemPayloadSchema, j) {
      var fs := AddShoppingItemPayloadSchema.fields;
      assert FieldAccepts(fs[0], j.members) && FieldAccepts(fs[1], j.members);
      assert FieldAccepts(fs[2], j.members) && FieldAccepts(fs[3], j.members);
    }
  }

  /** A patch document: every member optional; `unit` is a number (an id), not an object. */
  lemma UpdateShoppingItemPayloadAcceptsIff(j: Json)
    ensures Accepts(UpdateShoppingItemPayloadSchema, j) <==>
      && j.JObject?
      && ("checked" in j.members ==> j.members["checked"].JBool?)
      && ("amount" in j.members ==> j.members["amount"].JString?)
      && ("unit" in j.members ==> j.members["unit"].JNumber?)
      && ("note" in j.members ==> j.members["note"].JString?)
  {
    if j.JObject? && Accepts(UpdateShoppingItemPayloadSchema, j) {
      var fs := UpdateShoppingItemPayloadSchema.fields;
      assert FieldAccepts(fs[0], j.members) && FieldAccepts(fs[1], j.members);
      assert FieldAccepts(fs[2], j.members) && FieldAccepts(fs[3], j.members);
    }
  }
}
