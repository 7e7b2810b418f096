/**
 The part of the zod validation library that the API's schemas are built from,
 reduced to what decides acceptance: which JSON values a schema lets through.
 Parsing into an output value, error reporting and the order in which union
 alternatives are tried are not modelled; a schema is a value and `Accepts`
 is its accept set.
 */
module Zod {
  import opened JsonValue

  /** One key of a `z.object({...})` shape; `required == false` is `.optional()`. */
  datatype Field = Field(name: string, schema: Schema, required: bool)

  datatype Schema =
    | Str                              // z.string()
    | Num                              // z.number()
    | Bool                             // z.boolean()
    | Unknown                          // z.unknown()
    | Arr(elem: Schema)                // z.array(elem)
    | Union(left: Schema, right: Schema) // z.union([left, right])
    | Nullable(inner: Schema)          // inner.nullable()
    | Obj(fields: seq<Field>)          // z.object({...}), unknown keys ignored

  /** A required key: `name: schema`. */
  function Req(name: string, schema: Schema): Field {
    Field(name, schema, true)
  }

  /** An optional key: `name: schema.optional()`. */
  function Opt(name: string, schema: Schema): Field {
    Field(name, schema, false)
  }

  /** `Union(Str, Num)`, the `z.union([z.string(), z.number()])` of amount fields. */
  function StrOrNum(): Schema {
    Union(Str, Num)
  }

  /**
   Whether the schema accepts JavaScript's `undefined`, which is what an
   object schema hands to a key that the input lacks. Of the combinators used
   here only `z.unknown()` does; a nullable or a union passes it on.
   */
  predicate AcceptsMissing(s: Schema) {
    match s
    case Unknown => true
    case Union(a, b) => AcceptsMissing(a) || AcceptsMissing(b)
    case Nullable(x) => AcceptsMissing(x)
    case _ => false
  }

  /** The accept set of a schema. */
  predicate Accepts(s: Schema, j: Json)
    decreases s, 0
  {
    match s
    case Str => j.JString?
    case Num => j.JNumber?
    case Bool => j.JBool?
    case Unknown => true
    case Arr(e) => j.JArray? && forall i :: 0 <= i < |j.items| ==> Accepts(e, j.items[i])
    case Union(a, b) => Accepts(a, j) || Accepts(b, j)
    case Nullable(x) => j.JNull? || Accepts(x, j)
    case Obj(fs) => j.JObject? && forall i :: 0 <= i < |fs| ==> FieldAccepts(fs[i], j.members)
  }

  /** One key of an object schema against the members of an input object. */
  predicate FieldAccepts(f: Field, m: map<string, Json>)
    decreases f.schema, 1
  {
    if f.name in m then Accepts(f.schema, m[f.name])
    else !f.required || AcceptsMissing(f.schema)
  }

  /** The fields of `.partial()`: the same keys and schemas, every one optional. */
  function MakeOptional(fs: seq<Field>): (r: seq<Field>)
    ensures |r| == |fs|
    ensures forall i :: 0 <= i < |fs| ==>
      r[i].name == fs[i].name && r[i].schema == fs[i].schema && !r[i].required
  {
    if fs == [] then [] else [fs[0].(required := false)] + MakeOptional(fs[1..])
  }

  /** `s.partial()`; zod offers it on object schemas only. */
  function Partial(s: Schema): (r: Schema)
    requires s.Obj?
    ensures r.Obj? && |r.fields| == |s.fields|
    ensures forall i :: 0 <= i < |s.fields| ==>
      r.fields[i].name == s.fields[i].name && r.fields[i].schema == s.fields[i].schema && !r.fields[i].required
  {
    Obj(MakeOptional(s.fields))
  }

  /** Every key of the shape other than `k` is satisfied by `m`. */
  predicate AcceptsExcept(fs: seq<Field>, m: map<string, Json>, k: string) {
    forall i :: 0 <= i < |fs| && fs[i].name != k ==> FieldAccepts(fs[i], m)
  }

  /** Every key of the shape named `k` accepts `v`. */
  predicate NamedAccept(fs: seq<Field>, k: string, v: Json) {
    forall i :: 0 <= i < |fs| && fs[i].name == k ==> Accepts(fs[i].schema, v)
  }

  /** Every key of the shape named `k` may be left out. */
  predicate NamedMayBeMissing(fs: seq<Field>, k: string) {
    forall i :: 0 <= i < |fs| && fs[i].name == k ==> !fs[i].required || AcceptsMissing(fs[i].schema)
  }

  /** An object schema reads each member on its own: setting `k` to `v` is accepted
      exactly when the other keys are satisfied and `v` suits every key named `k`. */
  lemma SetMemberIff(fs: seq<Field>, m: map<string, Json>, k: string, v: Json)
    ensures Accepts(Obj(fs), JObject(m[k := v])) <==> AcceptsExcept(fs, m, k) && NamedAccept(fs, k, v)
  {
  }

  /** Removing `k` is accepted exactly when the other keys are satisfied and every
      key named `k` may be left out. */
  lemma RemoveMemberIff(fs: seq<Field>, m: map<string, Json>, k: string)
    ensures Accepts(Obj(fs), JObject(m - {k})) <==> AcceptsExcept(fs, m, k) && NamedMayBeMissing(fs, k)
  {
  }

  /** Object schemas are not strict: a member no key of the shape names is ignored. */
  lemma UnknownMemberIgnored(fs: seq<Field>, m: map<string, Json>, k: string, v: Json)
    requires forall i :: 0 <= i < |fs| ==> fs[i].name != k
    ensures Accepts(Obj(fs), JObject(m[k := v])) <==> Accepts(Obj(fs), JObject(m))
  {
  }

  /** The accept set of `.partial()`: any object whose present members each
      suit their key. */
  lemma PartialAcceptsIff(s: Schema, j: Json)
    requires s.Obj?
    ensures Accepts(Partial(s), j) <==>
      j.JObject? && forall i :: 0 <= i < |s.fields| && s.fields[i].name in j.members ==>
        Accepts(s.fields[i].schema, j.members[s.fields[i].name])
  {
  }

  /** `.partial()` only widens: what the full object schema accepts, the partial one does. */
  lemma PartialAcceptsSuperset(s: Schema, j: Json)
    requires s.Obj? && Accepts(s, j)
    ensures Accepts(Partial(s), j)
  {
  }

  /** `.partial()` of any object schema accepts `{}`. */
  lemma PartialAcceptsEmptyObject(s: Schema)
    requires s.Obj?
    ensures Accepts(Partial(s), EmptyObject())
  {
  }

  /** An array schema accepts a concatenation exactly when it accepts both parts;
      in particular the empty array is always accepted. */
  lemma ArrayConcatIff(e: Schema, a: seq<Json>, b: seq<Json>)
    ensures Accepts(Arr(e), JArray([]))
    ensures Accepts(Arr(e), JArray(a + b)) <==> Accepts(Arr(e), JArray(a)) && Accepts(Arr(e), JArray(b))
  {
    var c := a + b;
    if Accepts(Arr(e), JArray(c)) {
      forall i | 0 <= i < |a| ensures Accepts(e, a[i]) {
        assert c[i] == a[i];
      }
      forall i | 0 <= i < |b| ensures Accepts(e, b[i]) {
        assert c[|a| + i] == b[i];
      }
    }
    if Accepts(Arr(e), JArray(a)) && Accepts(Arr(e), JArray(b)) {
      forall i | 0 <= i < |c| ensures Accepts(e, c[i]) {
        if i < |a| {
          assert c[i] == a[i];
        } else {
          assert c[i] == b[i - |a|];
        }
      }
    }
  }
}
