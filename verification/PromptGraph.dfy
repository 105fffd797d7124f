/** The schemas and answers of a prompt graph: the server's list form of properties becomes JSON
    Schema form, and model fields are recovered from a free-form JSON answer. */
module PromptGraph {
  import opened Wrappers

  /** JSON, an object keeping its keys in order. */
  datatype Json = Null | Bool(flag: bool) | Number(number: real) | Text(text: string) | List(items: seq<Json>) | Object(fields: seq<Field>)

  datatype Field = Field(key: string, value: Json)

  // ----- dictionaries

  function Get(fields: seq<Field>, key: string): (r: Option<Json>)
    ensures r.None? <==> forall i :: 0 <= i < |fields| ==> fields[i].key != key
  {
    if fields == [] then None else if fields[0].key == key then Some(fields[0].value) else Get(fields[1..], key)
  }

  /** Replaces the value of a key in its place, or adds the key at the end. */
  function Set(fields: seq<Field>, key: string, value: Json): seq<Field> {
    if fields == [] then [Field(key, value)]
    else if fields[0].key == key then [Field(key, value)] + fields[1..]
    else [fields[0]] + Set(fields[1..], key, value)
  }

  function Without(fields: seq<Field>, dropped: set<string>): seq<Field> {
    if fields == [] then []
    else (if fields[0].key in dropped then [] else [fields[0]]) + Without(fields[1..], dropped)
  }

  lemma {:induction false} GetSet(fields: seq<Field>, key: string, value: Json, other: string)
    ensures Get(Set(fields, key, value), other) == if other == key then Some(value) else Get(fields, other)
  {
    if fields != [] {
      var r := Set(fields, key, value);
      if fields[0].key == key {
        assert r[1..] == fields[1..];
      } else {
        GetSet(fields[1..], key, value, other);
        assert r[1..] == Set(fields[1..], key, value);
      }
    }
  }

  lemma {:induction false} SetSame(fields: seq<Field>, key: string)
    requires Get(fields, key).Some?
    ensures Set(fields, key, Get(fields, key).value) == fields
  {
    assert fields == [fields[0]] + fields[1..];
    if fields[0].key == key {
      assert fields[0] == Field(key, Get(fields, key).value);
    } else {
      SetSame(fields[1..], key);
    }
  }

  // ----- sizes, for termination

  function Size(json: Json): nat {
    match json
    case List(items) => 1 + ItemsSize(items)
    case Object(fields) => 1 + FieldsSize(fields)
    case _ => 1
  }

  function ItemsSize(items: seq<Json>): nat { if items == [] then 0 else Size(items[0]) + ItemsSize(items[1..]) }

  function FieldsSize(fields: seq<Field>): nat { if fields == [] then 0 else Size(fields[0].value) + FieldsSize(fields[1..]) }

  lemma {:induction false} GetSmaller(fields: seq<Field>, key: string)
    ensures Get(fields, key).Some? ==> Size(Get(fields, key).value) <= FieldsSize(fields)
  {
    if fields != [] { GetSmaller(fields[1..], key); }
  }

  lemma {:induction false} WithoutSmaller(fields: seq<Field>, dropped: set<string>)
    ensures FieldsSize(Without(fields, dropped)) <= FieldsSize(fields)
  {
    if fields != [] {
      WithoutSmaller(fields[1..], dropped);
      var r := Without(fields, dropped);
      if fields[0].key !in dropped {
        assert r[1..] == Without(fields[1..], dropped);
      } else {
        assert r == Without(fields[1..], dropped);
      }
    }
  }

  // ----- schema normalisation

  predicate Truthy(json: Json) {
    match json
    case Null => false
    case Bool(b) => b
    case Number(n) => n != 0.0
    case Text(t) => t != ""
    case List(items) => items != []
    case Object(fields) => fields != []
  }

  /** With null among the types, if types are declared. */
  function Widened(fields: seq<Field>): seq<Field> {
    match Get(fields, "type")
    case Some(Text(t)) => if t != "null" then Set(fields, "type", List([Text(t), Text("null")])) else fields
    case Some(List(ts)) => if Text("null") !in ts then Set(fields, "type", List(ts + [Text("null")])) else fields
    case _ => fields
  }

  /** A property schema broadened to accept null. */
  function MakeNullable(prop: Json): Json {
    if !prop.Object? then prop
    else
      var widened := Widened(prop.fields);
      Object(if Get(widened, "default").None? then Set(widened, "default", Null) else widened)
  }

  predicate IsEntry(entry: Json) { entry.Object? && Get(entry.fields, "name").Some? && Get(entry.fields, "name").value.Text? }

  function NameOf(entry: Json): string
    requires IsEntry(entry)
  {
    Get(entry.fields, "name").value.text
  }

  predicate IsOptional(entry: Json)
    requires entry.Object?
  {
    var optional := Get(entry.fields, "optional");
    optional.Some? && Truthy(optional.value)
  }

  function RequiredNames(entries: seq<Json>): seq<Json> {
    if entries == [] then []
    else
      var n := |entries| - 1;
      RequiredNames(entries[..n]) + if IsEntry(entries[n]) && !IsOptional(entries[n]) then [Text(NameOf(entries[n]))] else []
  }

  const COMBINATORS := ["anyOf", "oneOf", "allOf"]

  const ENTRY_KEYS := {"name", "optional"}

  function Normalize(schema: Json): (r: Json)
    ensures r.Object? <==> schema.Object?
    decreases Size(schema), 1
  {
    if !schema.Object? then schema
    else
      var f := schema.fields;
      GetSmaller(f, "properties");
      var f1 := WithProperties(f);
      var f2 := WithInner(f, f1, "items");
      var f3 := WithInner(f, f2, "additionalProperties");
      var f4 := WithAlternatives(f, f3, "anyOf");
      var f5 := WithAlternatives(f, f4, "oneOf");
      Object(WithAlternatives(f, f5, "allOf"))
  }

  function WithProperties(f: seq<Field>): seq<Field>
    decreases 1 + FieldsSize(f), 0
  {
    GetSmaller(f, "properties");
    match Get(f, "properties")
    case Some(List(entries)) =>
      var typed := Set(f, "properties", Object(NormalizeEntries(entries)));
      var required := RequiredNames(entries);
      var demanding := if required != [] && Get(typed, "required").None? then Set(typed, "required", List(required)) else typed;
      if Get(demanding, "type").None? || Get(demanding, "type") == Some(Null) then Set(demanding, "type", Text("object")) else demanding
    case Some(Object(props)) => Set(f, "properties", Object(NormalizeValues(props)))
    case _ => f
  }

  /** `f` as it was given, `done` as rewritten so far. */
  function WithInner(f: seq<Field>, done: seq<Field>, key: string): seq<Field>
    decreases 1 + FieldsSize(f), 0
  {
    GetSmaller(f, key);
    match Get(f, key)
    case Some(Object(inner)) => Set(done, key, Normalize(Object(inner)))
    case _ => done
  }

  function WithAlternatives(f: seq<Field>, done: seq<Field>, key: string): seq<Field>
    decreases 1 + FieldsSize(f), 0
  {
    GetSmaller(f, key);
    match Get(f, key)
    case Some(List(items)) => Set(done, key, List(NormalizeAll(items)))
    case _ => done
  }

  /** One property from its list entry. */
  function Converted(entry: Json): Json
    requires IsEntry(entry)
    decreases Size(entry), 2
  {
    WithoutSmaller(entry.fields, ENTRY_KEYS);
    var prop := Normalize(Object(Without(entry.fields, ENTRY_KEYS)));
    if IsOptional(entry) then MakeNullable(prop) else prop
  }

  function NormalizeEntries(entries: seq<Json>): seq<Field>
    decreases ItemsSize(entries), 3, |entries|
  {
    if entries == [] then []
    else
      LastItem(entries);
      var n := |entries| - 1;
      var before := NormalizeEntries(entries[..n]);
      if IsEntry(entries[n]) then Set(before, NameOf(entries[n]), Converted(entries[n])) else before
  }

  function NormalizeValues(props: seq<Field>): (r: seq<Field>)
    ensures |r| == |props|
    decreases FieldsSize(props), 3, |props|
  {
    if props == [] then [] else [Field(props[0].key, Normalize(props[0].value))] + NormalizeValues(props[1..])
  }

  function NormalizeAll(items: seq<Json>): (r: seq<Json>)
    ensures |r| == |items|
    decreases ItemsSize(items), 3, |items|
  {
    if items == [] then [] else [Normalize(items[0])] + NormalizeAll(items[1..])
  }

  lemma {:induction false} LastItem(items: seq<Json>)
    requires items != []
    ensures ItemsSize(items) == ItemsSize(items[..|items| - 1]) + Size(items[|items| - 1])
  {
    if |items| > 1 {
      LastItem(items[1..]);
      assert items[1..][..|items| - 2] == items[..|items| - 1][1..];
    }
  }

  // ----- what normalisation achieves

  /** No visited position holds its properties in list form. */
  predicate Clean(schema: Json)
    decreases Size(schema), 1
  {
    schema.Object?
    ==> && CleanProperties(schema.fields)
        && CleanInner(schema.fields, "items") && CleanInner(schema.fields, "additionalProperties")
        && CleanAlternatives(schema.fields, "anyOf") && CleanAlternatives(schema.fields, "oneOf")
        && CleanAlternatives(schema.fields, "allOf")
  }

  predicate CleanProperties(f: seq<Field>)
    decreases 1 + FieldsSize(f), 0
  {
    GetSmaller(f, "properties");
    match Get(f, "properties")
    case Some(List(_)) => false
    case Some(Object(props)) => CleanValues(props)
    case _ => true
  }

  predicate CleanInner(f: seq<Field>, key: string)
    decreases 1 + FieldsSize(f), 0
  {
    GetSmaller(f, key);
    match Get(f, key)
    case Some(Object(inner)) => Clean(Object(inner))
    case _ => true
  }

  predicate CleanAlternatives(f: seq<Field>, key: string)
    decreases 1 + FieldsSize(f), 0
  {
    GetSmaller(f, key);
    match Get(f, key)
    case Some(List(items)) => CleanAll(items)
    case _ => true
  }

  predicate CleanValues(props: seq<Field>)
    decreases FieldsSize(props), 3, |props|
  {
    props != [] ==> Clean(props[0].value) && CleanValues(props[1..])
  }

  predicate CleanAll(items: seq<Json>)
    decreases ItemsSize(items), 3, |items|
  {
    items != [] ==> Clean(items[0]) && CleanAll(items[1..])
  }

  /** Cleanness looks at these six keys only. */
  ghost predicate SameVisited(f: seq<Field>, g: seq<Field>) {
    && Get(f, "properties") == Get(g, "properties")
    && Get(f, "items") == Get(g, "items") && Get(f, "additionalProperties") == Get(g, "additionalProperties")
    && Get(f, "anyOf") == Get(g, "anyOf") && Get(f, "oneOf") == Get(g, "oneOf") && Get(f, "allOf") == Get(g, "allOf")
  }

  lemma CleanByKeys(f: seq<Field>, g: seq<Field>)
    requires SameVisited(f, g)
    ensures Clean(Object(f)) == Clean(Object(g))
  {}

  lemma NullableClean(prop: Json)
    requires Clean(prop)
    ensures Clean(MakeNullable(prop))
  {
    if prop.Object? {
      NullableGet(prop, "properties");
      NullableGet(prop, "items");
      NullableGet(prop, "additionalProperties");
      NullableGet(prop, "anyOf");
      NullableGet(prop, "oneOf");
      NullableGet(prop, "allOf");
      CleanByKeys(prop.fields, MakeNullable(prop).fields);
    }
  }

  lemma WidenedGet(f: seq<Field>, key: string)
    ensures key != "type" ==> Get(Widened(f), key) == Get(f, key)
    ensures Get(f, "type").None? || !(Get(f, "type").value.Text? || Get(f, "type").value.List?) ==> Get(Widened(f), "type") == Get(f, "type")
    ensures Get(f, "type").Some? && Get(f, "type").value.Text? ==>
              var was, now := Get(f, "type").value, Get(Widened(f), "type");
              now == Some(if was.text == "null" then was else List([was, Text("null")]))
    ensures Get(f, "type").Some? && Get(f, "type").value.List? ==>
              var was, now := Get(f, "type").value.items, Get(Widened(f), "type");
              now == Some(List(if Text("null") in was then was else was + [Text("null")]))
  {
    match Get(f, "type") {
      case Some(Text(t)) =>
        GetSet(f, "type", List([Text(t), Text("null")]), key);
        GetSet(f, "type", List([Text(t), Text("null")]), "type");
      case Some(List(ts)) =>
        GetSet(f, "type", List(ts + [Text("null")]), key);
        GetSet(f, "type", List(ts + [Text("null")]), "type");
      case _ =>
    }
  }

  lemma NullableGet(prop: Json, key: string)
    requires prop.Object? && key != "type" && key != "default"
    ensures Get(MakeNullable(prop).fields, key) == Get(prop.fields, key)
  {
    WidenedGet(prop.fields, key);
    GetSet(Widened(prop.fields), "default", Null, key);
  }

  lemma {:induction false} SetClean(props: seq<Field>, key: string, value: Json)
    requires CleanValues(props) && Clean(value)
    ensures CleanValues(Set(props, key, value))
  {
    var r := Set(props, key, value);
    if props == [] {
      assert r[1..] == [];
    } else if props[0].key == key {
      assert r[1..] == props[1..];
    } else {
      SetClean(props[1..], key, value);
      assert r[1..] == Set(props[1..], key, value);
    }
  }

  lemma ListFormGet(f: seq<Field>, entries: seq<Json>, key: string)
    requires Get(f, "properties") == Some(List(entries)) && key !in ["required", "type"]
    ensures Get(WithProperties(f), key) == if key == "properties" then Some(Object(NormalizeEntries(entries))) else Get(f, key)
  {
    var typed, names := Set(f, "properties", Object(NormalizeEntries(entries))), RequiredNames(entries);
    var demanding := if names != [] && Get(typed, "required").None? then Set(typed, "required", List(names)) else typed;
    GetSet(f, "properties", Object(NormalizeEntries(entries)), key);
    GetSet(typed, "required", List(names), key);
    GetSet(demanding, "type", Text("object"), key);
  }

  lemma WithPropertiesGet(f: seq<Field>, key: string)
    ensures key !in ["properties", "required", "type"] ==> Get(WithProperties(f), key) == Get(f, key)
    ensures Get(WithProperties(f), "properties")
         == match Get(f, "properties")
            case Some(List(entries)) => Some(Object(NormalizeEntries(entries)))
            case Some(Object(props)) => Some(Object(NormalizeValues(props)))
            case other => other
  {
    match Get(f, "properties") {
      case Some(List(entries)) =>
        ListFormGet(f, entries, "properties");
        if key !in ["properties", "required", "type"] { ListFormGet(f, entries, key); }
      case Some(Object(props)) =>
        GetSet(f, "properties", Object(NormalizeValues(props)), key);
        GetSet(f, "properties", Object(NormalizeValues(props)), "properties");
      case _ =>
    }
  }

  lemma WithInnerGet(f: seq<Field>, done: seq<Field>, key: string, other: string)
    ensures Get(WithInner(f, done, key), other)
         == if other == key && Get(f, key).Some? && Get(f, key).value.Object? then Some(Normalize(Get(f, key).value)) else Get(done, other)
  {
    match Get(f, key) {
      case Some(Object(inner)) => GetSet(done, key, Normalize(Object(inner)), other);
      case _ =>
    }
  }

  lemma WithAlternativesGet(f: seq<Field>, done: seq<Field>, key: string, other: string)
    ensures Get(WithAlternatives(f, done, key), other)
         == if other == key && Get(f, key).Some? && Get(f, key).value.List? then Some(List(NormalizeAll(Get(f, key).value.items)))
            else Get(done, other)
  {
    match Get(f, key) {
      case Some(List(items)) => GetSet(done, key, List(NormalizeAll(items)), other);
      case _ =>
    }
  }

  const INNER := ["items", "additionalProperties"]

  lemma KeysDiffer()
    ensures "items" != "additionalProperties" && "properties" != "items" && "properties" != "additionalProperties"
    ensures "anyOf" != "oneOf" && "anyOf" != "allOf" && "oneOf" != "allOf"
    ensures forall key :: key in COMBINATORS ==> key !in INNER && key !in ["properties", "required", "type"]
    ensures forall key :: key in INNER ==> key !in COMBINATORS && key !in ["properties", "required", "type"]
  {
    assert "anyOf"[0] != "oneOf"[0] && "anyOf"[1] != "allOf"[1] && "oneOf"[0] != "allOf"[0];
    assert "items"[0] == 'i';
  }

  lemma OtherGet(f: seq<Field>, key: string)
    requires key !in INNER && key !in COMBINATORS
    ensures Get(Normalize(Object(f)).fields, key) == Get(WithProperties(f), key)
  {
    var f1 := WithProperties(f);
    var f2 := WithInner(f, f1, "items");
    var f3 := WithInner(f, f2, "additionalProperties");
    WithInnerGet(f, f1, "items", key);
    WithInnerGet(f, f2, "additionalProperties", key);
    AlternativesGet(f, f3, key);
  }

  /** What each visited key of a normalised schema holds. */
  lemma PropertiesGet(f: seq<Field>)
    ensures Get(Normalize(Object(f)).fields, "properties") == Get(WithProperties(f), "properties")
  {
    KeysDiffer();
    OtherGet(f, "properties");
  }

  lemma InnerGet(f: seq<Field>, key: string)
    requires key in INNER
    ensures Get(Normalize(Object(f)).fields, key)
         == if Get(f, key).Some? && Get(f, key).value.Object? then Some(Normalize(Get(f, key).value)) else Get(f, key)
  {
    var f1 := WithProperties(f);
    var f2 := WithInner(f, f1, "items");
    var f3 := WithInner(f, f2, "additionalProperties");
    KeysDiffer();
    WithPropertiesGet(f, key);
    WithInnerGet(f, f1, "items", key);
    WithInnerGet(f, f2, "additionalProperties", key);
    AlternativesGet(f, f3, key);
  }

  lemma CombinatorGet(f: seq<Field>, key: string)
    requires key in COMBINATORS
    ensures Get(Normalize(Object(f)).fields, key)
         == if Get(f, key).Some? && Get(f, key).value.List? then Some(List(NormalizeAll(Get(f, key).value.items))) else Get(f, key)
  {
    var f1 := WithProperties(f);
    var f2 := WithInner(f, f1, "items");
    var f3 := WithInner(f, f2, "additionalProperties");
    KeysDiffer();
    WithPropertiesGet(f, key);
    WithInnerGet(f, f1, "items", key);
    WithInnerGet(f, f2, "additionalProperties", key);
    AlternativesGet(f, f3, key);
  }

  lemma AlternativesGet(f: seq<Field>, f3: seq<Field>, key: string)
    ensures Get(WithAlternatives(f, WithAlternatives(f, WithAlternatives(f, f3, "anyOf"), "oneOf"), "allOf"), key)
         == if key in COMBINATORS && Get(f, key).Some? && Get(f, key).value.List? then Some(List(NormalizeAll(Get(f, key).value.items)))
            else Get(f3, key)
  {
    KeysDiffer();
    var f4 := WithAlternatives(f, f3, "anyOf");
    var f5 := WithAlternatives(f, f4, "oneOf");
    WithAlternativesGet(f, f3, "anyOf", key);
    WithAlternativesGet(f, f4, "oneOf", key);
    WithAlternativesGet(f, f5, "allOf", key);
  }

  /** Normalising leaves no list-form properties at any position it visits. */
  lemma {:induction false} NormalizeCleans(schema: Json)
    ensures Clean(Normalize(schema))
    decreases Size(schema), 1
  {
    if schema.Object? {
      var f, r := schema.fields, Normalize(schema).fields;
      PropertiesGet(f);
      WithPropertiesGet(f, "properties");
      GetSmaller(f, "properties");
      match Get(f, "properties") {
        case Some(List(entries)) => EntriesClean(entries);
        case Some(Object(props)) => ValuesClean(props);
        case _ =>
      }
      assert CleanProperties(r);
      InnerCleans(f, "items");
      InnerCleans(f, "additionalProperties");
      AlternativesClean(f, "anyOf");
      AlternativesClean(f, "oneOf");
      AlternativesClean(f, "allOf");
    }
  }

  lemma {:induction false} InnerCleans(f: seq<Field>, key: string)
    requires key in INNER
    ensures CleanInner(Normalize(Object(f)).fields, key)
    decreases 1 + FieldsSize(f), 0
  {
    InnerGet(f, key);
    GetSmaller(f, key);
    if Get(f, key).Some? && Get(f, key).value.Object? { NormalizeCleans(Get(f, key).value); }
  }

  lemma {:induction false} AlternativesClean(f: seq<Field>, key: string)
    requires key in COMBINATORS
    ensures CleanAlternatives(Normalize(Object(f)).fields, key)
    decreases 1 + FieldsSize(f), 0
  {
    CombinatorGet(f, key);
    GetSmaller(f, key);
    if Get(f, key).Some? && Get(f, key).value.List? { AllClean(Get(f, key).value.items); }
  }

  lemma {:induction false} EntriesClean(entries: seq<Json>)
    ensures CleanValues(NormalizeEntries(entries))
    decreases ItemsSize(entries), 3, |entries|
  {
    if entries != [] {
      var n := |entries| - 1;
      LastItem(entries);
      EntriesClean(entries[..n]);
      if IsEntry(entries[n]) {
        ConvertedCleans(entries[n]);
        SetClean(NormalizeEntries(entries[..n]), NameOf(entries[n]), Converted(entries[n]));
      }
    }
  }

  lemma {:induction false} ConvertedCleans(entry: Json)
    requires IsEntry(entry)
    ensures Clean(Converted(entry))
    decreases Size(entry), 2
  {
    var prop := Object(Without(entry.fields, ENTRY_KEYS));
    WithoutSmaller(entry.fields, ENTRY_KEYS);
    NormalizeCleans(prop);
    NullableClean(Normalize(prop));
  }

  lemma {:induction false} ValuesClean(props: seq<Field>)
    ensures CleanValues(NormalizeValues(props))
    decreases FieldsSize(props), 3, |props|
  {
    if props != [] {
      NormalizeCleans(props[0].value);
      ValuesClean(props[1..]);
      assert NormalizeValues(props)[1..] == NormalizeValues(props[1..]);
    }
  }

  lemma {:induction false} AllClean(items: seq<Json>)
    ensures CleanAll(NormalizeAll(items))
    decreases ItemsSize(items), 3, |items|
  {
    if items != [] {
      NormalizeCleans(items[0]);
      AllClean(items[1..]);
      assert NormalizeAll(items)[1..] == NormalizeAll(items[1..]);
    }
  }

  /** A clean schema is left as it is. */
  lemma {:induction false} CleanIsFixed(schema: Json)
    requires Clean(schema)
    ensures Normalize(schema) == schema
    decreases Size(schema), 1
  {
    if schema.Object? {
      var f := schema.fields;
      GetSmaller(f, "properties");
      match Get(f, "properties") {
        case Some(Object(props)) =>
          ValuesFixed(props);
          SetSame(f, "properties");
        case _ =>
      }
      InnerFixed(f, "items");
      InnerFixed(f, "additionalProperties");
      AlternativesFixed(f, "anyOf");
      AlternativesFixed(f, "oneOf");
      AlternativesFixed(f, "allOf");
    }
  }

  lemma {:induction false} InnerFixed(f: seq<Field>, key: string)
    requires CleanInner(f, key)
    ensures WithInner(f, f, key) == f
    decreases 1 + FieldsSize(f), 0
  {
    GetSmaller(f, key);
    match Get(f, key) {
      case Some(Object(inner)) =>
        CleanIsFixed(Object(inner));
        SetSame(f, key);
      case _ =>
    }
  }

  lemma {:induction false} AlternativesFixed(f: seq<Field>, key: string)
    requires CleanAlternatives(f, key)
    ensures WithAlternatives(f, f, key) == f
    decreases 1 + FieldsSize(f), 0
  {
    GetSmaller(f, key);
    match Get(f, key) {
      case Some(List(items)) =>
        AllFixed(items);
        SetSame(f, key);
      case _ =>
    }
  }

  lemma {:induction false} ValuesFixed(props: seq<Field>)
    requires CleanValues(props)
    ensures NormalizeValues(props) == props
    decreases FieldsSize(props), 3, |props|
  {
    if props != [] {
      CleanIsFixed(props[0].value);
      ValuesFixed(props[1..]);
      assert props == [props[0]] + props[1..];
    }
  }

  lemma {:induction false} AllFixed(items: seq<Json>)
    requires CleanAll(items)
    ensures NormalizeAll(items) == items
    decreases ItemsSize(items), 3, |items|
  {
    if items != [] {
      CleanIsFixed(items[0]);
      AllFixed(items[1..]);
      assert items == [items[0]] + items[1..];
    }
  }

  /** Normalising again changes nothing, and nothing but a schema already clean is unchanged. */
  lemma NormalizeTwice(schema: Json)
    ensures Normalize(Normalize(schema)) == Normalize(schema)
    ensures Normalize(schema) == schema <==> Clean(schema)
  {
    NormalizeCleans(schema);
    CleanIsFixed(Normalize(schema));
    if Clean(schema) { CleanIsFixed(schema); }
  }

  // ----- what the list form means

  predicate IsNamed(entry: Json, name: string) { IsEntry(entry) && NameOf(entry) == name }

  /** The last entry of a name. */
  function LastNamed(entries: seq<Json>, name: string): (r: Option<nat>)
    ensures r.None? ==> forall i :: 0 <= i < |entries| ==> !IsNamed(entries[i], name)
    ensures r.Some? ==> r.value < |entries| && IsNamed(entries[r.value], name)
                        && forall i :: r.value < i < |entries| ==> !IsNamed(entries[i], name)
  {
    if entries == [] then None
    else
      var n := |entries| - 1;
      assert forall i | 0 <= i < n :: entries[..n][i] == entries[i];
      if IsNamed(entries[n], name) then Some(n) else LastNamed(entries[..n], name)
  }

  /** The last entry of a name decides its property; no other name becomes one. */
  lemma {:induction false} LastEntryDecides(entries: seq<Json>, name: string)
    ensures Get(NormalizeEntries(entries), name)
         == match LastNamed(entries, name) case None => None case Some(i) => Some(Converted(entries[i]))
  {
    if entries != [] {
      var n := |entries| - 1;
      LastItem(entries);
      LastEntryDecides(entries[..n], name);
      if IsEntry(entries[n]) {
        GetSet(NormalizeEntries(entries[..n]), NameOf(entries[n]), Converted(entries[n]), name);
      }
    }
  }

  /** The names required are those of the entries not marked optional. */
  lemma {:induction false} RequiredAre(entries: seq<Json>, name: string)
    ensures Text(name) in RequiredNames(entries)
            <==> exists i :: 0 <= i < |entries| && IsEntry(entries[i]) && !IsOptional(entries[i]) && NameOf(entries[i]) == name
  {
    if entries != [] {
      var n := |entries| - 1;
      RequiredAre(entries[..n], name);
      assert forall i | 0 <= i < n :: entries[..n][i] == entries[i];
    }
  }

  /** A type, or list of types, that allows null. */
  predicate AllowsNull(declared: Json) { declared == Text("null") || (declared.List? && Text("null") in declared.items) }

  /** All types the one declaration allows are allowed by the other. */
  predicate AllowsAll(wider: Json, declared: Json) {
    if declared.List? then wider.List? && declared.items <= wider.items
    else wider == declared || (wider.List? && declared in wider.items)
  }

  /** A nullable property's declared type allows null and all it allowed before; it has a default,
      its own if it had one, and all else it had. */
  lemma NullableAllows(prop: Json, key: string)
    requires prop.Object?
    ensures var r := MakeNullable(prop).fields;
            && Get(r, "default") == (if Get(prop.fields, "default").Some? then Get(prop.fields, "default") else Some(Null))
            && (Get(r, "type").None? <==> Get(prop.fields, "type").None?)
            && (Get(r, "type").Some? ==> AllowsAll(Get(r, "type").value, Get(prop.fields, "type").value))
            && (Get(r, "type").Some? && (Get(r, "type").value.Text? || Get(r, "type").value.List?) ==> AllowsNull(Get(r, "type").value))
            && (key !in ["type", "default"] ==> Get(r, key) == Get(prop.fields, key))
  {
    WidenedGet(prop.fields, "default");
    GetSet(Widened(prop.fields), "default", Null, "type");
    GetSet(Widened(prop.fields), "default", Null, "default");
    if key !in ["type", "default"] { NullableGet(prop, key); }
  }

  // ----- what a list-form schema becomes

  const VISITED := ["properties", "items", "additionalProperties", "anyOf", "oneOf", "allOf"]

  /** What is neither visited nor filled in stays as it was. */
  lemma NormalizeKeeps(f: seq<Field>, key: string)
    requires key !in VISITED && key !in ["required", "type"]
    ensures Get(Normalize(Object(f)).fields, key) == Get(f, key)
  {
    OtherGet(f, key);
    WithPropertiesGet(f, key);
  }

  /** A schema that lists its properties requires the names that are not optional, unless it says
      itself what is required, and is an object unless it says what it is. */
  lemma ListFormReads(f: seq<Field>, entries: seq<Json>)
    requires Get(f, "properties") == Some(List(entries))
    ensures var r, names := Normalize(Object(f)).fields, RequiredNames(entries);
      && Get(r, "required") == (if Get(f, "required").Some? || names == [] then Get(f, "required") else Some(List(names)))
      && Get(r, "type") == (if Get(f, "type") == None || Get(f, "type") == Some(Null) then Some(Text("object")) else Get(f, "type"))
      && Get(r, "properties") == Some(Object(NormalizeEntries(entries)))
  {
    KeysDiffer();
    OtherGet(f, "required");
    OtherGet(f, "type");
    PropertiesGet(f);
    WithPropertiesGet(f, "properties");
    ListFormFills(f, entries);
  }

  lemma ListFormFills(f: seq<Field>, entries: seq<Json>)
    requires Get(f, "properties") == Some(List(entries))
    ensures var r, names := WithProperties(f), RequiredNames(entries);
      && Get(r, "required") == (if Get(f, "required").Some? || names == [] then Get(f, "required") else Some(List(names)))
      && Get(r, "type") == (if Get(f, "type") == None || Get(f, "type") == Some(Null) then Some(Text("object")) else Get(f, "type"))
  {
    var typed, names := Set(f, "properties", Object(NormalizeEntries(entries))), RequiredNames(entries);
    GetSet(f, "properties", Object(NormalizeEntries(entries)), "required");
    GetSet(f, "properties", Object(NormalizeEntries(entries)), "type");
    GetSet(typed, "required", List(names), "required");
    GetSet(typed, "required", List(names), "type");
    var demanding := if names != [] && Get(typed, "required").None? then Set(typed, "required", List(names)) else typed;
    GetSet(demanding, "type", Text("object"), "type");
    GetSet(demanding, "type", Text("object"), "required");
  }

  lemma {:induction false} WithoutGet(fields: seq<Field>, dropped: set<string>, key: string)
    ensures Get(Without(fields, dropped), key) == if key in dropped then None else Get(fields, key)
  {
    if fields != [] {
      var rest := Without(fields[1..], dropped);
      WithoutGet(fields[1..], dropped, key);
      assert [] + rest == rest && ([fields[0]] + rest)[1..] == rest;
    }
  }

  /** An entry has a text for a name, and is optional if it says so in any way Python takes for true. */
  lemma EntryReads(entry: Json)
    requires entry.Object?
    ensures IsEntry(entry) ==> Get(entry.fields, "name") == Some(Text(NameOf(entry)))
    ensures var falsy := [None, Some(Null), Some(Bool(false)), Some(Number(0.0)), Some(Text("")), Some(List([])), Some(Object([]))];
      IsOptional(entry) <==> Get(entry.fields, "optional") !in falsy
  {}

  /** A property keeps what its entry says of it, but for name and optionality. */
  lemma ConvertedReads(entry: Json, key: string)
    requires IsEntry(entry) && key !in VISITED
    ensures Converted(entry).Object?
    ensures key !in ["name", "optional", "required", "type", "default"] ==> Get(Converted(entry).fields, key) == Get(entry.fields, key)
    ensures key in ["name", "optional"] ==> Get(Converted(entry).fields, key) == None
    ensures var was, now := Get(entry.fields, key), Get(Converted(entry).fields, key);
      key == "default" ==> now == if IsOptional(entry) && was.None? then Some(Null) else was
  {
    var bare := Without(entry.fields, ENTRY_KEYS);
    var prop := Normalize(Object(bare));
    WithoutGet(entry.fields, ENTRY_KEYS, key);
    NullableAllows(prop, key);
    if key !in ["required", "type"] { NormalizeKeeps(bare, key); }
  }

  // ----- recovering fields from an answer

  /** What a model declares of a field, with the value that stands in for its type. */
  datatype FieldInfo = FieldInfo(required: bool, fallback: Json)

  const TEXT_SUFFIX := "_text"

  /** The field a key stands for: itself, or the field it renames by a suffix. */
  function TargetOf(names: set<string>, key: string): Option<string> {
    if key in names then Some(key)
    else if |key| >= |TEXT_SUFFIX| && key[|key| - |TEXT_SUFFIX|..] == TEXT_SUFFIX && key[..|key| - |TEXT_SUFFIX|] in names
    then Some(key[..|key| - |TEXT_SUFFIX|])
    else None
  }

  function OccurrenceOf(names: set<string>, field: Field): seq<Field> {
    var target := TargetOf(names, field.key);
    if target.Some? then [Field(target.value, field.value)] else []
  }

  /** A key stands for the field of its name, else for the one it names before "_text", else for none. */
  lemma OccurrenceReads(names: set<string>, key: string, value: Json, name: string)
    ensures key in names ==> OccurrenceOf(names, Field(key, value)) == [Field(key, value)]
    ensures key !in names && name in names && key == name + "_text" ==> OccurrenceOf(names, Field(key, value)) == [Field(name, value)]
    ensures key !in names && (forall n :: n in names ==> key != n + "_text") ==> OccurrenceOf(names, Field(key, value)) == []
  {
    assert (name + TEXT_SUFFIX)[|name|..] == TEXT_SUFFIX && (name + TEXT_SUFFIX)[..|name|] == name;
    if TargetOf(names, key).Some? && key !in names { assert key == key[..|key| - |TEXT_SUFFIX|] + "_text"; }
  }

  /** Every occurrence of a model field in the answer, in preorder. */
  function Occurrences(names: set<string>, json: Json): seq<Field>
    decreases json
  {
    match json
    case Object(fields) => FieldOccurrences(names, fields)
    case List(items) => ItemOccurrences(names, items)
    case _ => []
  }

  function FieldOccurrences(names: set<string>, fields: seq<Field>): seq<Field>
    decreases fields
  {
    if fields == [] then []
    else
      var n := |fields| - 1;
      FieldOccurrences(names, fields[..n]) + OccurrenceOf(names, fields[n]) + Occurrences(names, fields[n].value)
  }

  function ItemOccurrences(names: set<string>, items: seq<Json>): seq<Field>
    decreases items
  {
    if items == [] then [] else ItemOccurrences(names, items[..|items| - 1]) + Occurrences(names, items[|items| - 1])
  }

  /** A later value replaces nothing but a null. */
  function Bind(found: map<string, Json>, key: string, value: Json): map<string, Json> {
    if key !in found || (found[key] == Null && value != Null) then found[key := value] else found
  }

  function Bound(found: map<string, Json>, occurrences: seq<Field>): map<string, Json> {
    if occurrences == [] then found
    else
      var n := |occurrences| - 1;
      Bind(Bound(found, occurrences[..n]), occurrences[n].key, occurrences[n].value)
  }

  lemma {:induction false} BoundPlus(found: map<string, Json>, a: seq<Field>, b: seq<Field>)
    ensures Bound(found, a + b) == Bound(Bound(found, a), b)
  {
    if b == [] {
      assert a + b == a;
    } else {
      var n := |b| - 1;
      BoundPlus(found, a, b[..n]);
      assert (a + b)[..|a + b| - 1] == a + b[..n];
    }
  }

  class Recovery {
    const names: set<string>
    var found: map<string, Json>

    constructor (names: set<string>)
      ensures this.names == names && found == map[]
    {
      this.names := names;
      found := map[];
    }

    method MaybeSet(key: string, value: Json)
      modifies this
      ensures found == Bind(old(found), key, value)
    {
      if key !in found || (found[key] == Null && value != Null) { found := found[key := value]; }
    }

    method Walk(json: Json)
      modifies this
      ensures found == Bound(old(found), Occurrences(names, json))
      decreases json
    {
      match json {
        case Object(fields) =>
          for i := 0 to |fields|
            invariant found == Bound(old(found), FieldOccurrences(names, fields[..i]))
          {
            assert fields[..i + 1][..i] == fields[..i];
            ghost var before := FieldOccurrences(names, fields[..i]);
            var here := OccurrenceOf(names, fields[i]);
            BoundPlus(old(found), before, here);
            BoundPlus(old(found), before + here, Occurrences(names, fields[i].value));
            if here != [] {
              MaybeSet(here[0].key, here[0].value);
            }
            Walk(fields[i].value);
          }
          TakeAll(fields);
        case List(items) =>
          for i := 0 to |items|
            invariant found == Bound(old(found), ItemOccurrences(names, items[..i]))
          {
            assert items[..i + 1][..i] == items[..i];
            BoundPlus(old(found), ItemOccurrences(names, items[..i]), Occurrences(names, items[i]));
            Walk(items[i]);
          }
          TakeAll(items);
        case _ =>
      }
    }
  }

  /** A required field without a value gets the stand-in of its type. */
  function Completed(found: map<string, Json>, model: map<string, FieldInfo>): map<string, Json> {
    map name | name in found.Keys + model.Keys && (name in found || model[name].required)
      :: if name in model && model[name].required && (name !in found || found[name] == Null) then model[name].fallback else found[name]
  }

  function Recovered(payload: Json, model: map<string, FieldInfo>): Option<map<string, Json>> {
    var found := Bound(map[], Occurrences(model.Keys, payload));
    if found == map[] then None else Some(Completed(found, model))
  }

  /** Recovers a model's fields from an answer; the model's own validation has the last word, with
      None when it rejects them. */
  method RecoverFields(payload: Json, model: map<string, FieldInfo>, validate: map<string, Json> -> Option<map<string, Json>>)
    returns (r: Option<map<string, Json>>)
    ensures r == match Recovered(payload, model) { case None => None case Some(fields) => validate(fields) }
  {
    var recovery := new Recovery(model.Keys);
    recovery.Walk(payload);
    if recovery.found == map[] { return None; }
    r := validate(Completed(recovery.found, model));
  }

  /** The first non-null value of a field in preorder, if it has one. */
  ghost predicate IsFirst(occurrences: seq<Field>, name: string, value: Json) {
    exists i :: 0 <= i < |occurrences| && occurrences[i] == Field(name, value)
                && forall j :: 0 <= j < i && occurrences[j].key == name ==> occurrences[j].value == Null
  }

  ghost predicate OnlyNull(occurrences: seq<Field>, name: string) {
    forall i :: 0 <= i < |occurrences| && occurrences[i].key == name ==> occurrences[i].value == Null
  }

  /** Each field is bound to its first non-null occurrence, and to null only when all are null. */
  lemma {:induction false} FirstOccurrenceWins(occurrences: seq<Field>, name: string)
    ensures name in Bound(map[], occurrences) <==> exists i :: 0 <= i < |occurrences| && occurrences[i].key == name
    ensures name in Bound(map[], occurrences) ==>
              var value := Bound(map[], occurrences)[name];
              if value == Null then OnlyNull(occurrences, name) else IsFirst(occurrences, name, value)
  {
    if occurrences != [] {
      var n := |occurrences| - 1;
      FirstOccurrenceWins(occurrences[..n], name);
      FirstStep(occurrences, n, name);
    }
  }

  lemma FirstStep(occurrences: seq<Field>, n: nat, name: string)
    requires |occurrences| == n + 1
    ensures (exists i :: 0 <= i < |occurrences| && occurrences[i].key == name)
            <==> (exists i :: 0 <= i < n && occurrences[..n][i].key == name) || occurrences[n].key == name
    ensures OnlyNull(occurrences, name) <==> OnlyNull(occurrences[..n], name) && (occurrences[n].key == name ==> occurrences[n].value == Null)
    ensures forall value :: IsFirst(occurrences[..n], name, value) ==> IsFirst(occurrences, name, value)
    ensures OnlyNull(occurrences[..n], name) && occurrences[n].key == name ==> IsFirst(occurrences, name, occurrences[n].value)
  {
    assert forall i | 0 <= i < n :: occurrences[..n][i] == occurrences[i];
    if i :| 0 <= i < |occurrences| && occurrences[i].key == name { assert i < n ==> occurrences[..n][i].key == name; }
    forall value | IsFirst(occurrences[..n], name, value) ensures IsFirst(occurrences, name, value) {
      var i :| 0 <= i < n && occurrences[..n][i] == Field(name, value)
               && forall j :: 0 <= j < i && occurrences[..n][j].key == name ==> occurrences[..n][j].value == Null;
      assert occurrences[i] == Field(name, value);
    }
    if OnlyNull(occurrences[..n], name) && occurrences[n].key == name {
      forall j | 0 <= j < n && occurrences[j].key == name ensures occurrences[j].value == Null { assert occurrences[..n][j].key == name; }
      assert occurrences[n] == Field(name, occurrences[n].value);
    }
  }

  /** An answer wrapped under keys that are no model fields recovers as if it were bare. */
  lemma WrappingIsHarmless(payload: Json, model: map<string, FieldInfo>, key: string)
    requires TargetOf(model.Keys, key).None?
    ensures Recovered(Object([Field(key, payload)]), model) == Recovered(payload, model)
    ensures Recovered(List([payload]), model) == Recovered(payload, model)
  {
    var names, fields, items := model.Keys, [Field(key, payload)], [payload];
    assert fields[..0] == [] && items[..0] == [];
    assert FieldOccurrences(names, fields) == [] + [] + Occurrences(names, payload) == Occurrences(names, payload);
    assert ItemOccurrences(names, items) == [] + Occurrences(names, payload) == Occurrences(names, payload);
  }

  /** An answer is recovered exactly when some field occurs in it. */
  lemma RecoveredSomething(payload: Json, model: map<string, FieldInfo>)
    ensures Recovered(payload, model).Some? <==> Occurrences(model.Keys, payload) != []
  {
    var occurrences := Occurrences(model.Keys, payload);
    if occurrences != [] { FirstOccurrenceWins(occurrences, occurrences[0].key); }
  }

  lemma {:induction false} OnlyModelFields(json: Json, names: set<string>)
    ensures forall i :: 0 <= i < |Occurrences(names, json)| ==> Occurrences(names, json)[i].key in names
    decreases json, 1
  {
    match json {
      case Object(fields) => FieldsOnly(fields, names);
      case List(items) => ItemsOnly(items, names);
      case _ =>
    }
  }

  lemma OnlyFieldsBound(occurrences: seq<Field>, names: set<string>)
    requires forall i :: 0 <= i < |occurrences| ==> occurrences[i].key in names
    ensures Bound(map[], occurrences).Keys <= names
  {
    forall name | name in Bound(map[], occurrences) ensures name in names {
      FirstOccurrenceWins(occurrences, name);
      var i :| 0 <= i < |occurrences| && occurrences[i].key == name;
      assert occurrences[i].key in names;
    }
  }

  lemma {:induction false} FieldsOnly(fields: seq<Field>, names: set<string>)
    ensures forall i :: 0 <= i < |FieldOccurrences(names, fields)| ==> FieldOccurrences(names, fields)[i].key in names
    decreases fields, 0
  {
    if fields != [] {
      FieldsOnly(fields[..|fields| - 1], names);
      OnlyModelFields(fields[|fields| - 1].value, names);
    }
  }

  lemma {:induction false} ItemsOnly(items: seq<Json>, names: set<string>)
    ensures forall i :: 0 <= i < |ItemOccurrences(names, items)| ==> ItemOccurrences(names, items)[i].key in names
    decreases items, 0
  {
    if items != [] {
      ItemsOnly(items[..|items| - 1], names);
      OnlyModelFields(items[|items| - 1], names);
    }
  }

  /** What a recovered answer binds a field to: its first value, a stand-in where a required field
      has none, null where an optional field has only nulls. */
  lemma RecoveredBinds(payload: Json, model: map<string, FieldInfo>, name: string)
    requires Recovered(payload, model).Some? && name in model
    ensures Recovered(payload, model).value.Keys <= model.Keys
    ensures var occurrences, r := Occurrences(model.Keys, payload), Recovered(payload, model).value;
            && (name in r <==> model[name].required || exists i :: 0 <= i < |occurrences| && occurrences[i].key == name)
            && (name in r ==> || (model[name].required && OnlyNull(occurrences, name) && r[name] == model[name].fallback)
                              || (!model[name].required && OnlyNull(occurrences, name) && r[name] == Null)
                              || (r[name] != Null && IsFirst(occurrences, name, r[name])))
  {
    FirstOccurrenceWins(Occurrences(model.Keys, payload), name);
    OnlyModelFields(payload, model.Keys);
    OnlyFieldsBound(Occurrences(model.Keys, payload), model.Keys);
  }
}
