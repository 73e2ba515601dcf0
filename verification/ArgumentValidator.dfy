/**
 Tool-argument validation: the mutual recursion over schemas and values with its
 early returns, against a declarative predicate.
 */
module ArgumentValidator {
  import opened Prelude
  import opened LlmTypes
  import opened SortedSets

  type Object = map<string, Json>

  /** Where in the arguments an error is: `name`, `name[3]`, ... */
  datatype Path = Name(name: string) | Item(of: Path, index: nat)

  datatype Error =
    | BadProperties
    | BadRequired
    | Missing(name: string)
    | Unknown(name: string)
    | BadChild(name: string)
    | WrongType(at: Path)
    | Inside(at: Path, error: Error)

  // ----- reading a schema ------------------------------------------------

  function Get(o: Object, key: string): Json { if key in o then o[key] else JNull }

  function SchemaType(schema: Object): Option<string> {
    var t := Get(schema, "type");
    if t.JStr? then Some(t.s) else None
  }

  /** The declared properties; None when they are not an object. */
  function Properties(schema: Object): Option<Object> {
    var p := Get(schema, "properties");
    if p.JNull? then Some(map[]) else if p.JObj? then Some(p.fields) else None
  }

  /** The required names; None when they are not a list of strings. */
  function Required(schema: Object): Option<seq<string>> {
    var r := Get(schema, "required");
    if r.JNull? then Some([])
    else if r.JArr? && forall x | x in r.items :: x.JStr? then Some(Strings(r.items))
    else None
  }

  function Strings(items: seq<Json>): (r: seq<string>)
    requires forall x | x in items :: x.JStr?
    ensures |r| == |items| && forall i | 0 <= i < |items| :: r[i] == items[i].s
  {
    seq(|items|, i requires 0 <= i < |items| => items[i].s)
  }

  predicate Closed(schema: Object) { "additionalProperties" in schema && schema["additionalProperties"] == JBool(false) }

  // ----- the recursion ---------------------------------------------------

  function FirstMissing(required: seq<string>, args: Object): Option<string> {
    if required == [] then None else if required[0] !in args then Some(required[0]) else FirstMissing(required[1..], args)
  }

  function UnknownNames(args: Object, properties: Object): set<string> { args.Keys - properties.Keys }

  /** `_validate_arguments`; None when the arguments are accepted. */
  ghost function ValidateArguments(args: Object, schema: Object): Option<Error>
    decreases JObj(args), 2, 0
  {
    var properties, required := Properties(schema), Required(schema);
    if properties.None? then Some(BadProperties)
    else if required.None? then Some(BadRequired)
    else
      var missing := FirstMissing(required.value, args);
      if missing.Some? then Some(Missing(missing.value))
      else
        var unknown := Sorted(UnknownNames(args, properties.value), TextLe);
        if Closed(schema) && unknown != [] then Some(Unknown(unknown[0]))
        else ValidateProperties(Sorted(properties.value.Keys, TextLe), args, properties.value)
  }

  /** The loop over the sorted property names. */
  ghost function ValidateProperties(names: seq<string>, args: Object, properties: Object): Option<Error>
    decreases JObj(args), 1, |names|
  {
    if names == [] then None
    else if names[0] !in args || names[0] !in properties then ValidateProperties(names[1..], args, properties)
    else if !properties[names[0]].JObj? then Some(BadChild(names[0]))
    else
      assert args[names[0]] == JObj(args).fields[names[0]];
      var error := ValidateValue(Name(names[0]), args[names[0]], properties[names[0]].fields);
      if error.Some? then error else ValidateProperties(names[1..], args, properties)
  }

  /** `_validate_value` */
  ghost function ValidateValue(at: Path, value: Json, schema: Object): Option<Error>
    decreases value, 3, 0
  {
    var t := SchemaType(schema);
    if t == Some("string") then (if value.JStr? then None else Some(WrongType(at)))
    else if t == Some("number") then (if value.JInt? || value.JReal? then None else Some(WrongType(at)))
    else if t == Some("integer") then (if value.JInt? then None else Some(WrongType(at)))
    else if t == Some("boolean") then (if value.JBool? then None else Some(WrongType(at)))
    else if t == Some("object") then
      if !value.JObj? then Some(WrongType(at))
      else
        var error := ValidateArguments(value.fields, schema);
        if error.Some? then Some(Inside(at, error.value)) else None
    else if t == Some("array") then
      if !value.JArr? then Some(WrongType(at))
      else
        var items := Get(schema, "items");
        if items.JObj? then ValidateItems(at, value.items, 0, items.fields) else None
    else None
  }

  /** The loop over the items of an array. */
  ghost function ValidateItems(at: Path, items: seq<Json>, from: nat, schema: Object): Option<Error>
    requires from <= |items|
    decreases JArr(items), 1, |items| - from
  {
    if from == |items| then None
    else
      assert items[from] == JArr(items).items[from];
      var error := ValidateValue(Item(at, from), items[from], schema);
      if error.Some? then error else ValidateItems(at, items, from + 1, schema)
  }

  // ----- the declarative predicate ---------------------------------------

  /** The arguments satisfy an object schema, all clauses at once. */
  ghost predicate Conforms(args: Object, schema: Object)
    decreases JObj(args), 2
  {
    var properties, required := Properties(schema), Required(schema);
    && properties.Some? && required.Some?
    && (forall n | n in required.value :: n in args)
    && (Closed(schema) ==> forall n | n in args :: n in properties.value)
    && forall n | n in args && n in properties.value ::
         properties.value[n].JObj? && (assert args[n] == JObj(args).fields[n]; HasType(args[n], properties.value[n].fields))
  }

  /** A value has the type a schema names; booleans are no numbers, and an unnamed or unknown type is any. */
  ghost predicate HasType(value: Json, schema: Object)
    decreases value, 3
  {
    match SchemaType(schema)
    case None => true
    case Some(t) =>
      && (t == "string" ==> value.JStr?)
      && (t == "number" ==> value.JInt? || value.JReal?)
      && (t == "integer" ==> value.JInt?)
      && (t == "boolean" ==> value.JBool?)
      && (t == "object" ==> value.JObj? && Conforms(value.fields, schema))
      && (t == "array" ==> value.JArr? && (Get(schema, "items").JObj? ==> forall x | x in value.items :: HasType(x, Get(schema, "items").fields)))
  }

  // ----- exactness -------------------------------------------------------

  lemma {:induction false} FirstMissingIff(required: seq<string>, args: Object)
    ensures FirstMissing(required, args).None? <==> forall n | n in required :: n in args
    ensures FirstMissing(required, args).Some? ==> FirstMissing(required, args).value in required && FirstMissing(required, args).value !in args
  {
    if required != [] {
      assert required[0] in required && forall n | n in required[1..] :: n in required;
      FirstMissingIff(required[1..], args);
    }
  }

  lemma SortedNames(s: set<string>)
    ensures (forall n :: n in Sorted(s, TextLe) <==> n in s) && (s == {} <==> Sorted(s, TextLe) == [])
  {
    TextLeTotal();
    SortedIs(s, TextLe);
    hide Sorted, TextLe;
    var xs := Sorted(s, TextLe);
    forall n ensures n in xs <==> n in s { assert n in xs <==> n in (set x | x in xs); }
    if xs != [] { assert xs[0] in xs; }
  }

  /**
   Validator exactness: no error exactly when the arguments satisfy the
   declarative predicate, to any nesting depth.
   */
  lemma {:induction false} ArgumentsExact(args: Object, schema: Object)
    ensures ValidateArguments(args, schema).None? <==> Conforms(args, schema)
    decreases JObj(args), 2, 0
  {
    var properties, required := Properties(schema), Required(schema);
    if properties.Some? && required.Some? {
      hide FirstMissing, Sorted, Properties, Required, Closed;
      FirstMissingIff(required.value, args);
      SortedNames(UnknownNames(args, properties.value));
      SortedNames(properties.value.Keys);
      assert UnknownNames(args, properties.value) == {} <==> forall n | n in args :: n in properties.value;
      PropertiesExact(Sorted(properties.value.Keys, TextLe), args, properties.value);
    }
  }

  ghost predicate ChildOk(n: string, args: Object, properties: Object)
    requires n in args && n in properties
  {
    properties[n].JObj? && HasType(args[n], properties[n].fields)
  }

  lemma {:induction false} PropertiesExact(names: seq<string>, args: Object, properties: Object)
    ensures ValidateProperties(names, args, properties).None? <==> forall n | n in names && n in args && n in properties :: ChildOk(n, args, properties)
    decreases JObj(args), 1, |names|
  {
    hide ValidateValue, HasType, Conforms, ValidateArguments;
    if names != [] {
      assert names == [names[0]] + names[1..];
      PropertiesExact(names[1..], args, properties);
      if names[0] in args && names[0] in properties && properties[names[0]].JObj? {
        assert args[names[0]] == JObj(args).fields[names[0]];
        ValueExact(Name(names[0]), args[names[0]], properties[names[0]].fields);
      }
    }
  }

  lemma {:induction false} ValueExact(at: Path, value: Json, schema: Object)
    ensures ValidateValue(at, value, schema).None? <==> HasType(value, schema)
    decreases value, 3, 0
  {
    hide ValidateArguments, Conforms, ValidateItems, Get;
    var t := SchemaType(schema);
    TypeNames();
    if t == Some("object") && value.JObj? {
      assert JObj(value.fields) == value;
      ArgumentsExact(value.fields, schema);
    }
    if t == Some("array") && value.JArr? && Get(schema, "items").JObj? {
      assert JArr(value.items) == value;
      ItemsExact(at, value.items, 0, Get(schema, "items").fields);
    }
  }

  /** The type names differ. */
  lemma TypeNames()
    ensures var ts := ["string", "number", "integer", "boolean", "object", "array"];
            forall i, j | 0 <= i < j < |ts| :: ts[i] != ts[j]
  {
    assert |"string"| == 6 && |"number"| == 6 && |"object"| == 6 && |"integer"| == 7 && |"boolean"| == 7 && |"array"| == 5;
    assert "string"[0] == 's' && "number"[0] == 'n' && "object"[0] == 'o' && "integer"[0] == 'i' && "boolean"[0] == 'b';
  }

  lemma {:induction false} ItemsExact(at: Path, items: seq<Json>, from: nat, schema: Object)
    requires from <= |items|
    ensures ValidateItems(at, items, from, schema).None? <==> forall x | x in items[from..] :: HasType(x, schema)
    decreases JArr(items), 1, |items| - from
  {
    hide ValidateValue, HasType;
    if from < |items| {
      assert items[from..] == [items[from]] + items[from + 1..];
      assert items[from] == JArr(items).items[from];
      ValueExact(Item(at, from), items[from], schema);
      ItemsExact(at, items, from + 1, schema);
    }
  }

  // ----- which error -----------------------------------------------------

  /** `name` is required at some place, missing, and nothing required before it is missing. */
  predicate IsFirstMissing(required: seq<string>, args: Object, name: string) {
    exists k | 0 <= k < |required| :: required[k] == name && name !in args && forall i | 0 <= i < k :: required[i] in args
  }

  lemma {:induction false} FirstMissingExact(required: seq<string>, args: Object, name: string)
    ensures FirstMissing(required, args) == Some(name) <==> IsFirstMissing(required, args, name)
  {
    if required != [] && required[0] in args {
      var rest := required[1..];
      FirstMissingExact(rest, args, name);
      if IsFirstMissing(required, args, name) {
        var k :| 0 <= k < |required| && required[k] == name && name !in args && forall i | 0 <= i < k :: required[i] in args;
        assert rest[k - 1] == name && forall i | 0 <= i < k - 1 :: rest[i] == required[i + 1];
      }
      if IsFirstMissing(rest, args, name) {
        var k :| 0 <= k < |rest| && rest[k] == name && name !in args && forall i | 0 <= i < k :: rest[i] in args;
        assert required[k + 1] == name;
        forall i | 0 <= i < k + 1 ensures required[i] in args { if i > 0 { assert required[i] == rest[i - 1]; } }
      }
    } else if required != [] {
      assert IsFirstMissing(required, args, required[0]);
    }
  }

  /** `name` is the least name of the arguments that the schema does not declare. */
  predicate IsLeastUnknown(args: Object, properties: Object, name: string) {
    name in args && name !in properties && forall n | n in args && n !in properties :: TextLe(name, n)
  }

  /**
   A rejected call says why. A missing name is reported exactly when it is the
   first required name that is missing; an undeclared name exactly when nothing
   required is missing, the schema is closed, and it is the least of them. Only
   then are the values looked at.
   */
  lemma ErrorsInOrder(args: Object, schema: Object, name: string)
    requires Properties(schema).Some? && Required(schema).Some?
    ensures ValidateArguments(args, schema) == Some(Missing(name)) <==> IsFirstMissing(Required(schema).value, args, name)
    ensures ValidateArguments(args, schema) == Some(Unknown(name)) <==>
              && (forall n | n in Required(schema).value :: n in args)
              && Closed(schema) && IsLeastUnknown(args, Properties(schema).value, name)
  {
    hide TextLe, FirstMissing, IsFirstMissing, IsLeastUnknown, Properties, Required, Closed, Sorted, ValidateProperties, UnknownNames;
    var properties, required := Properties(schema).value, Required(schema).value;
    FirstMissingIff(required, args);
    FirstMissingExact(required, args, name);
    LeastUnknown(args, properties, name);
    PropertiesErrors(Sorted(properties.Keys, TextLe), args, properties);
  }

  lemma LeastUnknown(args: Object, properties: Object, name: string)
    ensures var xs := Sorted(UnknownNames(args, properties), TextLe);
            (xs != [] && xs[0] == name) <==> IsLeastUnknown(args, properties, name)
  {
    hide TextLe, Sorted;
    var s := UnknownNames(args, properties);
    TextLeTotal();
    SortedIs(s, TextLe);
    SortedNames(s);
    var xs := Sorted(s, TextLe);
    if xs != [] {
      assert xs[0] in xs && xs[0] in s;
      forall n | n in s ensures TextLe(xs[0], n) {
        var i :| 0 <= i < |xs| && xs[i] == n;
        if i == 0 { LeSelf(xs[0]); }
      }
      if IsLeastUnknown(args, properties, name) {
        assert name in s && TextLe(name, xs[0]) && TextLe(xs[0], name);
        TextAntisymmetric(name, xs[0]);
      }
    }
  }

  lemma LeSelf(a: string)
    ensures TextLe(a, a)
  {
    TextTotal(a, a);
  }

  /** Looking at the values never reports a missing or an unknown name of the same object. */
  lemma {:induction false} PropertiesErrors(names: seq<string>, args: Object, properties: Object)
    ensures var e := ValidateProperties(names, args, properties); e.Some? ==> !e.value.Missing? && !e.value.Unknown?
    decreases |names|
  {
    if names != [] {
      PropertiesErrors(names[1..], args, properties);
      if names[0] in args && names[0] in properties && properties[names[0]].JObj? {
        ValueErrors(Name(names[0]), args[names[0]], properties[names[0]].fields);
      }
    }
  }

  lemma {:induction false} ValueErrors(at: Path, value: Json, schema: Object)
    ensures var e := ValidateValue(at, value, schema); e.Some? ==> !e.value.Missing? && !e.value.Unknown?
    decreases value
  {
    if value.JArr? && Get(schema, "items").JObj? { ItemErrors(at, value, 0, Get(schema, "items").fields); }
  }

  lemma {:induction false} ItemErrors(at: Path, value: Json, from: nat, schema: Object)
    requires value.JArr? && from <= |value.items|
    ensures var e := ValidateItems(at, value.items, from, schema); e.Some? ==> !e.value.Missing? && !e.value.Unknown?
    decreases value, |value.items| - from
  {
    if from < |value.items| {
      ValueErrors(Item(at, from), value.items[from], schema);
      ItemErrors(at, value, from + 1, schema);
    }
  }
}
