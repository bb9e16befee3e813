/**
 * The converter proper (`JsonSchemaConverter`, a subclass of Swagger's
 * `ModelResolver`). Each facet resolver decides whether `@JsonField` or
 * `@JsonObject` overrides the base resolver's default, which is passed in as
 * `base`. A result of `None` is a Java `null`, and is not the same outcome as
 * the base default.
 */
module JsonSchemaConverter {
  import opened Wrappers
  import opened Annotations
  import opened Swagger

  // ---------------------------------------------------------------------------
  // Title and description: field-level metadata first, then object-level,
  // then the base default.

  function ResolveDescription(base: ModelResolver, a: Annotated): (r: Option<string>)
    ensures a.jsonField.Some? ==> r == Some(a.jsonField.value.description)
    ensures a.jsonField.None? && a.jsonObject.Some? ==> r == Some(a.jsonObject.value.description)
    ensures a.jsonField.None? && a.jsonObject.None? ==> r == base.description(a)
  {
    match a.jsonField
    case Some(field) => Some(field.description)
    case None =>
      match a.jsonObject
      case Some(obj) => Some(obj.description)
      case None => base.description(a)
  }

  function ResolveTitle(base: ModelResolver, a: Annotated): (r: Option<string>)
    ensures a.jsonField.Some? ==> r == Some(a.jsonField.value.title)
    ensures a.jsonField.None? && a.jsonObject.Some? ==> r == Some(a.jsonObject.value.title)
    ensures a.jsonField.None? && a.jsonObject.None? ==> r == base.title(a)
  {
    match a.jsonField
    case Some(field) => Some(field.title)
    case None =>
      match a.jsonObject
      case Some(obj) => Some(obj.title)
      case None => base.title(a)
  }

  // ---------------------------------------------------------------------------
  // Example: object-level metadata only; an empty example is null.

  function ResolveExample(base: ModelResolver, a: Annotated): (r: Option<string>)
    ensures a.jsonObject.Some? && a.jsonObject.value.example == "" ==> r == None
    ensures a.jsonObject.Some? && a.jsonObject.value.example != "" ==> r == Some(a.jsonObject.value.example)
    ensures a.jsonObject.None? ==> r == base.example(a)
    ensures r.Some? && a.jsonObject.Some? ==> r.value != ""
  {
    match a.jsonObject
    case Some(obj) => if obj.example == "" then None else Some(obj.example)
    case None => base.example(a)
  }

  // ---------------------------------------------------------------------------
  // readOnly and writeOnly: the field annotation's flag, else the base default.

  function ResolveReadOnly(base: ModelResolver, a: Annotated): (r: Option<bool>)
    ensures a.jsonField.Some? ==> r == Some(a.jsonField.value.readOnly)
    ensures a.jsonField.None? ==> r == base.readOnly(a)
  {
    match a.jsonField
    case Some(field) => Some(field.readOnly)
    case None => base.readOnly(a)
  }

  function ResolveWriteOnly(base: ModelResolver, a: Annotated): (r: Option<bool>)
    ensures a.jsonField.Some? ==> r == Some(a.jsonField.value.writeOnly)
    ensures a.jsonField.None? ==> r == base.writeOnly(a)
  {
    match a.jsonField
    case Some(field) => Some(field.writeOnly)
    case None => base.writeOnly(a)
  }

  // ---------------------------------------------------------------------------
  // Length and maximum bounds: a stored 0 means "unset" and yields null, not
  // the base default.

  function ResolveMaxLength(base: ModelResolver, a: Annotated): (r: Option<int32>)
    ensures a.jsonField.Some? ==> (r == None <==> a.jsonField.value.maxLength == 0)
    ensures a.jsonField.Some? && r.Some? ==> r.value == a.jsonField.value.maxLength
    ensures a.jsonField.None? ==> r == base.maxLength(a)
  {
    match a.jsonField
    case Some(field) => if field.maxLength == 0 then None else Some(field.maxLength)
    case None => base.maxLength(a)
  }

  /**
   * As written, an element without `@JsonField` falls back to the base
   * resolver's *maxLength* default, not its minLength default
   * (see `ConverterProperties.MinLengthDefaultIsMaxLengthDefault`).
   */
  function ResolveMinLength(base: ModelResolver, a: Annotated): (r: Option<int32>)
    ensures a.jsonField.Some? ==> (r == None <==> a.jsonField.value.minLength == 0)
    ensures a.jsonField.Some? && r.Some? ==> r.value == a.jsonField.value.minLength
    ensures a.jsonField.None? ==> r == base.maxLength(a)
  {
    match a.jsonField
    case Some(field) => if field.minLength == 0 then None else Some(field.minLength)
    case None => base.maxLength(a)
  }

  /** `BigDecimal.valueOf` of the annotation's integer maximum is that integer, exactly. */
  function ResolveMaximum(base: ModelResolver, a: Annotated): (r: Option<real>)
    ensures a.jsonField.Some? ==> (r == None <==> a.jsonField.value.maximum == 0)
    ensures a.jsonField.Some? && r.Some? ==> r.value == a.jsonField.value.maximum as real
    ensures a.jsonField.None? ==> r == base.maximum(a)
  {
    match a.jsonField
    case Some(field) => if field.maximum == 0 then None else Some(field.maximum as real)
    case None => base.maximum(a)
  }

  // ---------------------------------------------------------------------------
  // Pattern and allowable values: returned verbatim, with no sentinel; an
  // empty string or list still overrides the base default.

  function ResolvePattern(base: ModelResolver, a: Annotated): (r: Option<string>)
    ensures a.jsonField.Some? ==> r == Some(a.jsonField.value.pattern)
    ensures a.jsonField.None? ==> r == base.pattern(a)
  {
    match a.jsonField
    case Some(field) => Some(field.pattern)
    case None => base.pattern(a)
  }

  /** `Arrays.asList(enumerable)`: the same strings, in the same order. */
  function ResolveAllowableValues(base: ModelResolver, a: Annotated): (r: Option<seq<string>>)
    ensures a.jsonField.Some? ==> r.Some? && |r.value| == |a.jsonField.value.enumerable|
    ensures a.jsonField.Some? ==> forall i :: 0 <= i < |r.value| ==> r.value[i] == a.jsonField.value.enumerable[i]
    ensures a.jsonField.None? ==> r == base.allowableValues(a)
  {
    match a.jsonField
    case Some(field) => Some(field.enumerable)
    case None => base.allowableValues(a)
  }

  // ---------------------------------------------------------------------------
  // Facets with no annotation override: the base default, for any element.

  function ResolveFormat(base: ModelResolver, a: Annotated): (r: Option<string>)
    ensures r == base.format(a)
  {
    base.format(a)
  }

  function ResolveNullable(base: ModelResolver, a: Annotated): (r: Option<bool>)
    ensures r == base.nullable(a)
  {
    base.nullable(a)
  }

  function ResolveMultipleOf(base: ModelResolver, a: Annotated): (r: Option<real>)
    ensures r == base.multipleOf(a)
  {
    base.multipleOf(a)
  }

  function ResolveMinimum(base: ModelResolver, a: Annotated): (r: Option<real>)
    ensures r == base.minimum(a)
  {
    base.minimum(a)
  }

  function ResolveExclusiveMinimum(base: ModelResolver, a: Annotated): (r: Option<bool>)
    ensures r == base.exclusiveMinimum(a)
  {
    base.exclusiveMinimum(a)
  }

  function ResolveExclusiveMaximum(base: ModelResolver, a: Annotated): (r: Option<bool>)
    ensures r == base.exclusiveMaximum(a)
  {
    base.exclusiveMaximum(a)
  }

  function ResolveMinProperties(base: ModelResolver, a: Annotated): (r: Option<int32>)
    ensures r == base.minProperties(a)
  {
    base.minProperties(a)
  }

  function ResolveMaxProperties(base: ModelResolver, a: Annotated): (r: Option<int32>)
    ensures r == base.maxProperties(a)
  {
    base.maxProperties(a)
  }

  // ---------------------------------------------------------------------------
  // Required properties.

  /** The exception the cast `(AnnotatedClass) a` raises on an element that is not a class. */
  datatype ConversionError = ClassCastException

  /** A field counts as required when it carries `@JsonField` with `required` set. */
  predicate IsRequired(f: Annotated) {
    f.jsonField.Some? && f.jsonField.value.required
  }

  /** The specification of the collector: the names of the required fields, in declaration order. */
  function RequiredNames(fields: seq<Annotated>): (r: seq<string>)
    ensures |r| <= |fields|
  {
    if fields == [] then []
    else
      var last := fields[|fields| - 1];
      RequiredNames(fields[..|fields| - 1]) + (if IsRequired(last) then [last.name] else [])
  }

  /** The positions of the required fields; `RequiredNames` is their names. */
  ghost function RequiredIndices(fields: seq<Annotated>): (r: seq<int>)
    ensures |r| == |RequiredNames(fields)|
  {
    if fields == [] then []
    else
      var n := |fields| - 1;
      RequiredIndices(fields[..n]) + (if IsRequired(fields[n]) then [n] else [])
  }

  /**
   * `resolveRequiredProperties`: with `@JsonObject`, the list collected from
   * the class's fields (the base default is not consulted); without it, the
   * base default.
   */
  method ResolveRequiredProperties(base: ModelResolver, a: Annotated)
    returns (r: Result<Option<seq<string>>, ConversionError>)
    ensures a.jsonObject.None? ==> r == Success(base.requiredProperties(a))
    ensures a.jsonObject.Some? && a.kind.AnnotatedClass? ==> r == Success(Some(RequiredNames(a.kind.fields)))
    ensures a.jsonObject.Some? && a.kind.AnnotatedMember? ==> r == Failure(ClassCastException)
  {
    if a.jsonObject.None? {
      return Success(base.requiredProperties(a));
    }
    if !a.kind.AnnotatedClass? {
      return Failure(ClassCastException);
    }
    var fields := a.kind.fields;
    var result: seq<string> := [];
    for i := 0 to |fields|
      invariant result == RequiredNames(fields[..i])
    {
      var schema := fields[i].jsonField;
      if schema.Some? && schema.value.required {
        result := result + [fields[i].name];
      }
      assert fields[..i + 1][..i] == fields[..i];
    }
    assert fields[..|fields|] == fields;
    return Success(Some(result));
  }

  // ---------------------------------------------------------------------------
  // uniqueItems post-processing.

  /** `resolveUnique`: the field annotation's flag, false without one. */
  function ResolveUnique(a: Annotated): (r: bool)
    ensures r <==> a.jsonField.Some? && a.jsonField.value.uniqueItems
  {
    match a.jsonField
    case Some(field) => field.uniqueItems
    case None => false
  }

  /** What the hook makes of a node the base step has populated. */
  function WithUniqueItems(v: SchemaValue, a: Annotated): (r: SchemaValue)
    ensures r.facets == v.facets
    ensures ResolveUnique(a) ==> r.uniqueItems == Some(true)
    ensures !ResolveUnique(a) ==> r == v
    ensures r.uniqueItems != v.uniqueItems ==> r.uniqueItems == Some(true)
    ensures r.uniqueItems == Some(true) <==> ResolveUnique(a) || v.uniqueItems == Some(true)
  {
    if ResolveUnique(a) then v.(uniqueItems := Some(true)) else v
  }

  /** `resolveSchemaMembers`: the base population, then `uniqueItems` set in place when annotated. */
  method ResolveSchemaMembers(base: ModelResolver, schema: Schema, a: Annotated)
    modifies schema
    ensures schema.Value() == WithUniqueItems(base.schemaMembers(old(schema.Value()), a), a)
  {
    schema.Assign(base.schemaMembers(schema.Value(), a));
    var unique := ResolveUnique(a);
    if unique {
      schema.SetUniqueItems(true);
    }
  }
}
