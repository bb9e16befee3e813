/**
 * The part of the Swagger library the converter builds on: the schema node it
 * enriches and the base `ModelResolver` whose defaults it overrides. The base
 * resolver's behaviour is not part of this model; each of its hooks is an
 * arbitrary function supplied by the caller.
 */
module Swagger {
  import opened Wrappers
  import opened Annotations

  /** The facets of a schema node other than `uniqueItems`; `None` is an unset (null) facet. */
  datatype Facets = Facets(
    title: Option<string>,
    description: Option<string>,
    format: Option<string>,
    example: Option<string>,
    readOnly: Option<bool>,
    writeOnly: Option<bool>,
    nullable: Option<bool>,
    multipleOf: Option<real>,
    maxLength: Option<int32>,
    minLength: Option<int32>,
    minimum: Option<real>,
    maximum: Option<real>,
    exclusiveMinimum: Option<bool>,
    exclusiveMaximum: Option<bool>,
    pattern: Option<string>,
    minProperties: Option<int32>,
    maxProperties: Option<int32>,
    required: Option<seq<string>>,
    enumValues: Option<seq<string>>)

  /** A snapshot of a schema node's state. */
  datatype SchemaValue = SchemaValue(facets: Facets, uniqueItems: Option<bool>)

  /** A schema node, owned by the generic walker and updated in place. */
  class Schema {
    var facets: Facets
    var uniqueItems: Option<bool>

    constructor (facets: Facets, uniqueItems: Option<bool>)
      ensures this.facets == facets && this.uniqueItems == uniqueItems
    {
      this.facets := facets;
      this.uniqueItems := uniqueItems;
    }

    function Value(): SchemaValue
      reads this
    {
      SchemaValue(facets, uniqueItems)
    }

    /** `Schema.setUniqueItems`: sets the flag and nothing else. */
    method SetUniqueItems(b: bool)
      modifies this
      ensures uniqueItems == Some(b)
      ensures facets == old(facets)
    {
      uniqueItems := Some(b);
    }

    /** Overwrites the whole node; how the base walker's in-place population lands on the node. */
    method Assign(v: SchemaValue)
      modifies this
      ensures Value() == v
    {
      facets := v.facets;
      uniqueItems := v.uniqueItems;
    }
  }

  /**
   * The base resolver's hooks (`super.resolve*`): the default each facet gets
   * when the converter does not override it, and the generic population of a
   * schema node (`super.resolveSchemaMembers`).
   */
  datatype ModelResolver = ModelResolver(
    description: Annotated -> Option<string>,
    title: Annotated -> Option<string>,
    format: Annotated -> Option<string>,
    example: Annotated -> Option<string>,
    readOnly: Annotated -> Option<bool>,
    nullable: Annotated -> Option<bool>,
    multipleOf: Annotated -> Option<real>,
    maxLength: Annotated -> Option<int32>,
    minLength: Annotated -> Option<int32>,
    minimum: Annotated -> Option<real>,
    maximum: Annotated -> Option<real>,
    exclusiveMinimum: Annotated -> Option<bool>,
    exclusiveMaximum: Annotated -> Option<bool>,
    pattern: Annotated -> Option<string>,
    minProperties: Annotated -> Option<int32>,
    maxProperties: Annotated -> Option<int32>,
    requiredProperties: Annotated -> Option<seq<string>>,
    writeOnly: Annotated -> Option<bool>,
    allowableValues: Annotated -> Option<seq<string>>,
    schemaMembers: (SchemaValue, Annotated) -> SchemaValue)
}
