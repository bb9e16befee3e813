/**
 * The program elements the converter inspects and the two annotations it reads.
 * Jackson's reflective `hasAnnotation`/`getAnnotation` lookup becomes the optional
 * `jsonField` and `jsonObject` fields of `Annotated`.
 */
module Annotations {
  import opened Wrappers

  /** Java's 32-bit `int` and `Integer`. */
  newtype int32 = x: int | -0x8000_0000 <= x < 0x8000_0000

  /** Field-level metadata (`@JsonField`): the attributes the converter reads. */
  datatype JsonField = JsonField(
    title: string,
    description: string,
    required: bool,
    minLength: int32,
    maxLength: int32,
    maximum: int,
    pattern: string,
    enumerable: seq<string>,
    readOnly: bool,
    writeOnly: bool,
    uniqueItems: bool)

  /** Object-level metadata (`@JsonObject`). */
  datatype JsonObject = JsonObject(title: string, description: string, example: string)

  /** What kind of Jackson element an `Annotated` is: a class with its fields, or anything else. */
  datatype Kind =
    | AnnotatedClass(fields: seq<Annotated>)
    | AnnotatedMember

  /** A program element as Jackson presents it: its name, the annotations it carries, its kind. */
  datatype Annotated = Annotated(
    name: string,
    jsonField: Option<JsonField>,
    jsonObject: Option<JsonObject>,
    kind: Kind)

  /** The names of the given fields, in declaration order. */
  function Names(fields: seq<Annotated>): (r: seq<string>)
    ensures |r| == |fields|
    ensures forall i :: 0 <= i < |fields| ==> r[i] == fields[i].name
  {
    if fields == [] then [] else Names(fields[..|fields| - 1]) + [fields[|fields| - 1].name]
  }
}
