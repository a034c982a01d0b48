/**
  The schema subset: a checker of definitions and a validator of values, both walking maps in whatever
  order the runtime happens to choose, against what definitions and values are supposed to mean.
 */
module Schema {
  import opened Domain

  /** Decoded JSON; a number keeps its text. */
  datatype Json =
    | Null
    | Bool(value: bool)
    | Number(text: string)
    | String(chars: string)
    | Array(items: seq<Json>)
    | Object(fields: map<string, Json>)

  /** `Panic` is a type assertion that fails. */
  datatype Verdict = Pass | BadSchema | Mismatch | Panic

  /** The order in which a traversal of a map comes to its keys. */
  type Order = map<string, Json> -> seq<string>

  /** A traversal comes to every key and to nothing else. */
  ghost predicate Complete(order: Order) {
    forall fields, name :: name in order(fields) <==> name in fields
  }

  predicate SupportedType(name: string) {
    name in {"object", "array", "string", "boolean", "number", "integer", "null"}
  }

  // Numbers that fit 64 bits

  predicate IsDigit(c: char) {
    '0' <= c <= '9'
  }

  predicate AllDigits(text: string) {
    forall i :: 0 <= i < |text| ==> IsDigit(text[i])
  }

  function DigitsValue(digits: string): nat
    requires AllDigits(digits)
  {
    if digits == "" then 0
    else
      var last := digits[|digits| - 1];
      assert IsDigit(last);
      DigitsValue(digits[..|digits| - 1]) * 10 + (last as int - '0' as int)
  }

  predicate Signed(text: string) {
    text != "" && (text[0] == '-' || text[0] == '+')
  }

  function WithoutSign(text: string): string {
    if Signed(text) then text[1..] else text
  }

  /** An optional sign and digits, in the range of a signed 64-bit integer: no fraction and no exponent. */
  predicate IsInt64(text: string) {
    var digits := WithoutSign(text);
    && digits != ""
    && AllDigits(digits)
    && DigitsValue(digits) <= (if Signed(text) && text[0] == '-' then 0x8000_0000_0000_0000 else 0x7FFF_FFFF_FFFF_FFFF)
  }

  function Digits(n: nat): string {
    if n < 10 then [('0' as int + n) as char] else Digits(n / 10) + [('0' as int + n % 10) as char]
  }

  /** The text of an integer. */
  function Decimal(n: int): string {
    if n < 0 then "-" + Digits(-n) else Digits(n)
  }

  lemma {:induction false} DigitsRead(n: nat)
    ensures Digits(n) != "" && AllDigits(Digits(n))
    ensures DigitsValue(Digits(n)) == n
  {
    var digits := Digits(n);
    if n >= 10 {
      DigitsRead(n / 10);
      assert digits[..|digits| - 1] == Digits(n / 10);
    } else {
      assert digits[..0] == "";
    }
  }

  /** Of the texts of integers, exactly those of signed 64-bit integers are taken. */
  lemma Int64Texts(n: int)
    ensures IsInt64(Decimal(n)) <==> -0x8000_0000_0000_0000 <= n <= 0x7FFF_FFFF_FFFF_FFFF
  {
    var digits := Digits(if n < 0 then -n else n);
    DigitsRead(if n < 0 then -n else n);
    assert IsDigit(digits[0]);
    assert ("-" + digits)[1..] == digits;
  }

  /** A number with a fraction or an exponent is no integer, whatever its value. */
  lemma NoFractions(text: string, i: nat)
    requires i < |text| && text[i] in {'.', 'e', 'E'}
    ensures !IsInt64(text)
  {
    var digits, k := WithoutSign(text), if Signed(text) then i - 1 else i;
    assert digits[k] == text[i] && !IsDigit(digits[k]);
  }

  /** Behind an optional sign, nothing but the ten digits is ever taken. */
  lemma OnlyDigits(text: string, i: nat)
    requires i < |text| && text[i] !in "0123456789" && (i == 0 ==> text[0] != '-' && text[0] != '+')
    ensures !IsInt64(text)
  {
    if IsInt64(text) {
      var digits, k := WithoutSign(text), if Signed(text) then i - 1 else i;
      assert digits[k] == text[i] && IsDigit(digits[k]);
      TenDigits(text[i]);
    }
  }

  lemma TenDigits(c: char)
    requires IsDigit(c)
    ensures c in "0123456789"
  {
    var n := c as int - '0' as int;
    assert "0123456789"[n] == c;
  }

  predicate HasType(name: string, value: Json) {
    match name
    case "object" => value.Object?
    case "array" => value.Array?
    case "string" => value.String?
    case "boolean" => value.Bool?
    case "number" => value.Number?
    case "integer" => value.Number? && IsInt64(value.text)
    case "null" => value.Null?
    case _ => false
  }

  // The code

  /** Checks a definition; the first fault found ends the check. */
  function CheckDefinition(order: Order, d: Json): Verdict
    requires Complete(order) && d.Object?
    decreases d, 1, 0
  {
    if "type" in d.fields && !(d.fields["type"].String? && SupportedType(d.fields["type"].chars)) then BadSchema
    else if "properties" in d.fields && !d.fields["properties"].Object? then BadSchema
    else
      var properties :=
        if "properties" in d.fields
        then CheckProperties(order, d.fields["properties"], order(d.fields["properties"].fields))
        else Pass;
      if properties != Pass then properties
      else if "items" !in d.fields then Pass
      else if !d.fields["items"].Object? then BadSchema
      else CheckDefinition(order, d.fields["items"])
  }

  function CheckProperties(order: Order, properties: Json, names: seq<string>): Verdict
    requires Complete(order) && properties.Object? && forall name :: name in names ==> name in properties.fields
    decreases properties, 0, |names|
  {
    if names == [] then Pass
    else
      var child := properties.fields[names[0]];
      if !child.Object? then BadSchema
      else
        var first := CheckDefinition(order, child);
        if first != Pass then first else CheckProperties(order, properties, names[1..])
  }

  function ValidateType(rawType: Json, value: Json): Verdict {
    if !rawType.String? then Panic else if HasType(rawType.chars, value) then Pass else Mismatch
  }

  function ValidateEnum(rawEnum: Json, value: Json): Verdict {
    if !rawEnum.Array? then BadSchema else if value in rawEnum.items then Pass else Mismatch
  }

  function ValidateRequired(names: seq<Json>, fields: map<string, Json>): Verdict {
    if names == [] then Pass
    else if !names[0].String? then BadSchema
    else if names[0].chars !in fields then Mismatch
    else ValidateRequired(names[1..], fields)
  }

  function PropertiesOf(d: Json): map<string, Json>
    requires d.Object?
  {
    if "properties" in d.fields && d.fields["properties"].Object? then d.fields["properties"].fields else map[]
  }

  function AllowsAdditional(d: Json): bool
    requires d.Object?
  {
    "additionalProperties" in d.fields && d.fields["additionalProperties"].Bool? ==> d.fields["additionalProperties"].value
  }

  function ValidateFields(order: Order, d: Json, properties: map<string, Json>, obj: Json, names: seq<string>): Verdict
    requires Complete(order) && d.Object? && obj.Object? && forall name :: name in names ==> name in obj.fields
    decreases obj, 0, |names|
  {
    if names == [] then Pass
    else
      var name := names[0];
      if name !in properties then
        if AllowsAdditional(d) then ValidateFields(order, d, properties, obj, names[1..]) else Mismatch
      else if !properties[name].Object? then Panic
      else
        var first := ValidateValue(order, properties[name], obj.fields[name]);
        if first != Pass then first else ValidateFields(order, d, properties, obj, names[1..])
  }

  function ValidateItems(order: Order, items: Json, values: seq<Json>): Verdict
    requires Complete(order) && items.Object?
    decreases values, 0, 0
  {
    if values == [] then Pass
    else
      var first := ValidateValue(order, items, values[0]);
      if first != Pass then first else ValidateItems(order, items, values[1..])
  }

  function ValidateObject(order: Order, d: Json, value: Json): Verdict
    requires Complete(order) && d.Object? && value.Object?
    decreases value, 1, 0
  {
    var required :=
      if "required" !in d.fields then Pass
      else if !d.fields["required"].Array? then BadSchema
      else ValidateRequired(d.fields["required"].items, value.fields);
    if required != Pass then required
    else if "properties" in d.fields && !d.fields["properties"].Object? then Panic
    else ValidateFields(order, d, PropertiesOf(d), value, order(value.fields))
  }

  /** Validates a value; the first fault found ends the validation. */
  function ValidateValue(order: Order, d: Json, value: Json): Verdict
    requires Complete(order) && d.Object?
    decreases value, 2, 0
  {
    var typed := if "type" in d.fields then ValidateType(d.fields["type"], value) else Pass;
    if typed != Pass then typed
    else
      var listed := if "enum" in d.fields then ValidateEnum(d.fields["enum"], value) else Pass;
      if listed != Pass then listed
      else if value.Object? then ValidateObject(order, d, value)
      else if value.Array? && "items" in d.fields then
        if d.fields["items"].Object? then ValidateItems(order, d.fields["items"], value.items) else Panic
      else Pass
  }

  /** Decoding failed where there is no value; a null definition decodes to an empty one. */
  function Validate(order: Order, schema: Option<Json>, value: Option<Json>): Verdict
    requires Complete(order)
  {
    if schema.None? || !(schema.value.Object? || schema.value.Null?) then BadSchema
    else
      var d := if schema.value.Null? then Object(map[]) else schema.value;
      var checked := CheckDefinition(order, d);
      if checked != Pass then checked
      else if value.None? then Mismatch
      else ValidateValue(order, d, value.value)
  }

  // What definitions and values are supposed to mean

  /** What a type name says of a value. */
  predicate OfType(name: string, value: Json) {
    || (name == "null" && value == Null)
    || (name == "boolean" && (value == Bool(true) || value == Bool(false)))
    || (name == "string" && value.String?)
    || (name == "number" && value.Number?)
    || (name == "integer" && value.Number? && IsInt64(value.text))
    || (name == "array" && value.Array?)
    || (name == "object" && value.Object?)
  }

  ghost predicate IsTypeName(name: string) {
    exists value :: OfType(name, value)
  }

  ghost predicate WellFormed(d: Json)
    decreases d
  {
    && d.Object?
    && ("type" in d.fields ==> d.fields["type"].String? && IsTypeName(d.fields["type"].chars))
    && ("properties" in d.fields ==>
          && d.fields["properties"].Object?
          && forall name :: name in d.fields["properties"].fields ==> WellFormed(d.fields["properties"].fields[name]))
    && ("items" in d.fields ==> WellFormed(d.fields["items"]))
  }

  predicate RequiredPresent(required: Json, fields: map<string, Json>) {
    required.Array? && forall i :: 0 <= i < |required.items| ==> required.items[i].String? && required.items[i].chars in fields
  }

  predicate Declares(d: Json, name: string) {
    d.Object? && "properties" in d.fields && d.fields["properties"].Object? && name in d.fields["properties"].fields
  }

  /** Only the literal false closes an object; true, anything that is no boolean and no keyword at all leave it open. */
  predicate ForbidsOthers(d: Json) {
    d.Object? && "additionalProperties" in d.fields && d.fields["additionalProperties"] == Bool(false)
  }

  ghost predicate Conforms(d: Json, value: Json)
    decreases value
  {
    && d.Object?
    && ("type" in d.fields ==> d.fields["type"].String? && OfType(d.fields["type"].chars, value))
    && ("enum" in d.fields ==> d.fields["enum"].Array? && value in d.fields["enum"].items)
    && (value.Object? ==>
          && ("required" in d.fields ==> RequiredPresent(d.fields["required"], value.fields))
          && (ForbidsOthers(d) ==> forall name :: name in value.fields ==> Declares(d, name))
          && forall name :: name in value.fields && Declares(d, name) ==>
               Conforms(d.fields["properties"].fields[name], value.fields[name]))
    && (value.Array? && "items" in d.fields ==>
          forall i :: 0 <= i < |value.items| ==> Conforms(d.fields["items"], value.items[i]))
  }

  /** The code's tests on type names and types, against what the names say. */
  lemma TypesDecided(name: string, value: Json)
    ensures SupportedType(name) <==> IsTypeName(name)
    ensures HasType(name, value) <==> OfType(name, value)
  {
    if SupportedType(name) {
      DigitsRead(0);
      assert IsInt64("0") by {
        Int64Texts(0);
      }
      var example := match name
        case "object" => Object(map[])
        case "array" => Array([])
        case "string" => String("")
        case "boolean" => Bool(true)
        case "null" => Null
        case _ => Number("0");
      assert OfType(name, example);
    }
  }

  // The checker decides well-formedness

  lemma {:induction false} CheckerDecides(order: Order, d: Json)
    requires Complete(order) && d.Object?
    ensures CheckDefinition(order, d) == if WellFormed(d) then Pass else BadSchema
    decreases d, 1, 0
  {
    if "type" in d.fields && d.fields["type"].String? {
      TypesDecided(d.fields["type"].chars, Null);
    }
    if "properties" in d.fields && d.fields["properties"].Object? {
      PropertiesDecided(order, d.fields["properties"], order(d.fields["properties"].fields));
    }
    if "items" in d.fields && d.fields["items"].Object? {
      CheckerDecides(order, d.fields["items"]);
    }
  }

  lemma {:induction false} PropertiesDecided(order: Order, properties: Json, names: seq<string>)
    requires Complete(order) && properties.Object? && forall name :: name in names ==> name in properties.fields
    ensures CheckProperties(order, properties, names) ==
            if forall name :: name in names ==> WellFormed(properties.fields[name]) then Pass else BadSchema
    decreases properties, 0, |names|
  {
    if names != [] {
      var child := properties.fields[names[0]];
      if child.Object? {
        CheckerDecides(order, child);
      }
      PropertiesDecided(order, properties, names[1..]);
      assert forall name :: name in names <==> name == names[0] || name in names[1..];
    }
  }

  // The validator decides conformance to a checked definition

  lemma {:induction false} RequiredDecided(names: seq<Json>, fields: map<string, Json>)
    ensures ValidateRequired(names, fields) != Panic
    ensures ValidateRequired(names, fields) == Pass <==>
            forall i :: 0 <= i < |names| ==> names[i].String? && names[i].chars in fields
  {
    if names != [] {
      RequiredDecided(names[1..], fields);
      assert forall i :: 0 < i < |names| ==> names[i] == names[1..][i - 1];
    }
  }

  /** One field of an object conforms: to its definition if it has one, and otherwise if others are not forbidden. */
  ghost predicate FieldConforms(d: Json, obj: Json, name: string)
    requires d.Object? && obj.Object? && name in obj.fields
  {
    if Declares(d, name) then Conforms(d.fields["properties"].fields[name], obj.fields[name]) else !ForbidsOthers(d)
  }

  /** The verdict on the first of the fields, and whether it conforms. */
  lemma {:induction false} FieldDecided(order: Order, d: Json, obj: Json, names: seq<string>)
    requires Complete(order) && WellFormed(d) && obj.Object? && names != [] && forall name :: name in names ==> name in obj.fields
    ensures var properties := PropertiesOf(d);
            if FieldConforms(d, obj, names[0])
            then ValidateFields(order, d, properties, obj, names) == ValidateFields(order, d, properties, obj, names[1..])
            else ValidateFields(order, d, properties, obj, names) in {BadSchema, Mismatch}
    decreases obj, 0, |names|, 0
  {
    var name := names[0];
    if Declares(d, name) {
      ValidatorDecides(order, PropertiesOf(d)[name], obj.fields[name]);
    }
  }

  lemma {:induction false} FieldsDecided(order: Order, d: Json, obj: Json, names: seq<string>)
    requires Complete(order) && WellFormed(d) && obj.Object? && forall name :: name in names ==> name in obj.fields
    ensures ValidateFields(order, d, PropertiesOf(d), obj, names) != Panic
    ensures ValidateFields(order, d, PropertiesOf(d), obj, names) == Pass <==> forall name :: name in names ==> FieldConforms(d, obj, name)
    decreases obj, 0, |names|, 1
  {
    if names != [] {
      FieldDecided(order, d, obj, names);
      FieldsDecided(order, d, obj, names[1..]);
      if ValidateFields(order, d, PropertiesOf(d), obj, names) == Pass {
        forall name | name in names
          ensures FieldConforms(d, obj, name)
        {
          assert name == names[0] || name in names[1..];
        }
      } else if FieldConforms(d, obj, names[0]) {
        var name :| name in names[1..] && !FieldConforms(d, obj, name);
        assert name in names;
      } else {
        assert names[0] in names;
      }
    }
  }

  lemma {:induction false} ItemsDecided(order: Order, items: Json, values: seq<Json>)
    requires Complete(order) && WellFormed(items)
    ensures ValidateItems(order, items, values) != Panic
    ensures ValidateItems(order, items, values) == Pass <==> forall i :: 0 <= i < |values| ==> Conforms(items, values[i])
    decreases values, 0, 0
  {
    if values != [] {
      ValidatorDecides(order, items, values[0]);
      ItemsDecided(order, items, values[1..]);
      assert forall i :: 0 < i < |values| ==> values[i] == values[1..][i - 1];
    }
  }

  lemma {:induction false} FieldsConform(d: Json, obj: Json)
    requires d.Object? && obj.Object?
    ensures (forall name :: name in obj.fields ==> FieldConforms(d, obj, name)) <==>
            && (ForbidsOthers(d) ==> forall name :: name in obj.fields ==> Declares(d, name))
            && forall name :: name in obj.fields && Declares(d, name) ==>
                 Conforms(d.fields["properties"].fields[name], obj.fields[name])
  {
    assert forall name :: name in obj.fields ==>
      (FieldConforms(d, obj, name) <==>
         if Declares(d, name) then Conforms(d.fields["properties"].fields[name], obj.fields[name]) else !ForbidsOthers(d));
  }

  /** On a checked definition no type assertion fails, and a value is accepted exactly when it conforms. */
  lemma {:induction false} ValidatorDecides(order: Order, d: Json, value: Json)
    requires Complete(order) && WellFormed(d)
    ensures ValidateValue(order, d, value) != Panic
    ensures ValidateValue(order, d, value) == Pass <==> Conforms(d, value)
    decreases value, 2, 0
  {
    if "type" in d.fields {
      TypesDecided(d.fields["type"].chars, value);
    }
    if value.Object? {
      if "required" in d.fields && d.fields["required"].Array? {
        RequiredDecided(d.fields["required"].items, value.fields);
      }
      FieldsDecided(order, d, value, order(value.fields));
      FieldsConform(d, value);
    } else if value.Array? && "items" in d.fields {
      ItemsDecided(order, d.fields["items"], value.items);
    }
  }

  /** The definition a schema text stands for. */
  function DefinitionOf(schema: Option<Json>): Option<Json> {
    if schema.None? then None
    else if schema.value.Null? then Some(Object(map[]))
    else if schema.value.Object? then schema
    else None
  }

  /** As a whole: total, decided by the meaning of definition and value, and the same for every traversal order. */
  lemma ValidationDecides(order: Order, other: Order, schema: Option<Json>, value: Option<Json>)
    requires Complete(order) && Complete(other)
    ensures Validate(order, schema, value) != Panic
    ensures Validate(order, schema, value) == Pass <==>
            DefinitionOf(schema).Some? && WellFormed(DefinitionOf(schema).value) && value.Some?
            && Conforms(DefinitionOf(schema).value, value.value)
    ensures Validate(order, schema, value) == Pass <==> Validate(other, schema, value) == Pass
  {
    if DefinitionOf(schema).Some? {
      var d := DefinitionOf(schema).value;
      CheckerDecides(order, d);
      CheckerDecides(other, d);
      if WellFormed(d) && value.Some? {
        ValidatorDecides(order, d, value.value);
        ValidatorDecides(other, d, value.value);
      }
    }
  }

  /** Without the check a type assertion can fail. */
  lemma UncheckedPanics(order: Order)
    requires Complete(order)
    ensures var d := Object(map["type" := Null]);
            CheckDefinition(order, d) == BadSchema && ValidateValue(order, d, Null) == Panic
  {
  }

  /** The definition of the arguments of the worker's own tool. */
  const SERVICE := Object(map["type" := String("string")])
  const SERVICE_ARGUMENTS := Object(map[
    "type" := String("object"),
    "properties" := Object(map["service" := SERVICE]),
    "required" := Array([String("service")]),
    "additionalProperties" := Bool(false)])

  lemma ServiceWellFormed()
    ensures WellFormed(SERVICE_ARGUMENTS)
  {
    assert OfType("string", String("")) && OfType("object", SERVICE);
    assert WellFormed(SERVICE);
  }

  lemma ServiceConforms(value: Json)
    ensures Conforms(SERVICE, value) <==> value.String?
  {
  }

  lemma ServiceDeclared(name: string)
    ensures Declares(SERVICE_ARGUMENTS, name) <==> name == "service"
    ensures ForbidsOthers(SERVICE_ARGUMENTS)
  {
  }

  lemma ServiceRequired(fields: map<string, Json>)
    ensures RequiredPresent(SERVICE_ARGUMENTS.fields["required"], fields) <==> "service" in fields
  {
    assert SERVICE_ARGUMENTS.fields["required"].items[0] == String("service");
  }

  lemma ArgumentsConform(value: Json)
    ensures Conforms(SERVICE_ARGUMENTS, value) <==>
            value.Object? && value.fields.Keys == {"service"} && value.fields["service"].String?
  {
    forall name {
      ServiceDeclared(name);
    }
    if value.Object? {
      ServiceRequired(value.fields);
      if "service" in value.fields {
        ServiceConforms(value.fields["service"]);
      }
    }
  }

  /** It takes objects with a textual service and nothing else. */
  lemma ServiceArguments(order: Order, value: Json)
    requires Complete(order)
    ensures Validate(order, Some(SERVICE_ARGUMENTS), Some(value)) == Pass <==>
            value.Object? && value.fields.Keys == {"service"} && value.fields["service"].String?
  {
    ValidationDecides(order, order, Some(SERVICE_ARGUMENTS), Some(value));
    ServiceWellFormed();
    ArgumentsConform(value);
  }
}
