# swagger-jsonschema: the annotation-driven schema resolver

`JsonSchemaConverter` extends Swagger's `ModelResolver`. For every schema facet
it decides whether a field-level `@JsonField` or a type-level `@JsonObject`
annotation overrides the default the base resolver would produce. It also
collects the required-property list of an annotated class, and after the base
resolver has populated a schema node it sets that node's `uniqueItems` flag in
place.

The model has five modules, one per file:

- `Wrappers` (`wrappers.dfy`): `Option`, where `None` is a Java `null`, and `Result`.
- `Annotations` (`annotations.dfy`): the `JsonField` and `JsonObject` records and
  the `Annotated` element. The element carries zero or one of each annotation
  and is either a class with its fields in declaration order or some other
  member. Jackson's `hasAnnotation`/`getAnnotation` lookup, and with it the
  private helpers `getJsonField` and `getJsonObject`, becomes the element's
  `jsonField` and `jsonObject` fields.
- `Swagger` (`swagger.dfy`): the library surface the converter builds on.
  `ModelResolver` is a record with one arbitrary function per `super.resolve*`
  hook, so every property holds for any base resolver. `Schema` is a class
  whose fields the hook updates in place.
- `JsonSchemaConverter` (`json_schema_converter.dfy`): every override.
  - The facet resolvers, including the pass-throughs, are functions of the base
    resolver and the element.
  - `ResolveRequiredProperties` is a method whose loop is proved against the
    filter `RequiredNames`.
  - `ResolveSchemaMembers` is a method that modifies the `Schema` node. It is
    proved against `WithUniqueItems`.
- `ConverterProperties` (`converter_properties.dfy`): lemmas relating several
  resolvers, inputs or base resolvers.

Three behaviours of the code are easy to misread; the model keeps them as written:

- A zero maxLength, minLength or maximum in a present `@JsonField` yields `null`.
  It does not fall through to the base default.
- An empty `@JsonObject` example also yields `null` and does not consult the
  base default.
- Without `@JsonField`, `resolveMinLength` returns the base resolver's
  *maxLength* default (`JsonSchemaConverter.java:108`). This looks like a
  copy-paste slip, but it is kept as written.
  `ConverterProperties.MinLengthDefaultIsMaxLengthDefault` and
  `ConverterProperties.MinLengthFallbackDiffers` make it visible.
- `ConverterProperties.PersonExample` shows the zero rule on a required `name`
  field: its `maxLength = 0` gives `null`, not the base default.
- The cast `(AnnotatedClass) a` in `resolveRequiredProperties` is modelled.
  A `@JsonObject` on an element that is not a class gives
  `Failure(ClassCastException)`. The declaration of `@JsonObject` (its
  `@Target`) is not part of this model, so this path is kept rather than ruled out.

## Model

| member | source | states |
|---|---|---|
| `JsonSchemaConverter.ResolveDescription` | src/main/java/de/uni/frankfurt/swagger/JsonSchemaConverter.java:25-37 | field description if `@JsonField` present (even empty); else object description if `@JsonObject` present; base default only when neither is present |
| `JsonSchemaConverter.ResolveTitle` | src/main/java/de/uni/frankfurt/swagger/JsonSchemaConverter.java:39-51 | same precedence for title: field, then object, then base default |
| `JsonSchemaConverter.ResolveExample` | src/main/java/de/uni/frankfurt/swagger/JsonSchemaConverter.java:59-67 | with `@JsonObject`: null for an empty example, the example verbatim otherwise, and never an empty string; without it: base default |
| `JsonSchemaConverter.ResolveReadOnly` | src/main/java/de/uni/frankfurt/swagger/JsonSchemaConverter.java:69-77 | exactly the annotation's readOnly flag when `@JsonField` present; else base default |
| `JsonSchemaConverter.ResolveWriteOnly` | src/main/java/de/uni/frankfurt/swagger/JsonSchemaConverter.java:183-191 | exactly the annotation's writeOnly flag when `@JsonField` present; else base default |
| `JsonSchemaConverter.ResolveMaxLength` | src/main/java/de/uni/frankfurt/swagger/JsonSchemaConverter.java:91-99 | with `@JsonField`: null iff stored maxLength is 0, otherwise that value; without it: base maxLength default |
| `JsonSchemaConverter.ResolveMinLength` | src/main/java/de/uni/frankfurt/swagger/JsonSchemaConverter.java:101-109 | with `@JsonField`: null iff stored minLength is 0, otherwise that value; without it: the base *maxLength* default, as written |
| `JsonSchemaConverter.ResolveMaximum` | src/main/java/de/uni/frankfurt/swagger/JsonSchemaConverter.java:117-127 | with `@JsonField`: null iff stored maximum is 0, otherwise exactly that integer as a decimal; without it: base default |
| `JsonSchemaConverter.ResolvePattern` | src/main/java/de/uni/frankfurt/swagger/JsonSchemaConverter.java:141-149 | with `@JsonField`: the pattern verbatim, empty string included; else base default |
| `JsonSchemaConverter.ResolveAllowableValues` | src/main/java/de/uni/frankfurt/swagger/JsonSchemaConverter.java:199-207 | with `@JsonField`: a non-null list of the same length and elements, in order, as `enumerable`, empty included; else base default |
| `JsonSchemaConverter.ResolveFormat` | src/main/java/de/uni/frankfurt/swagger/JsonSchemaConverter.java:53-57 | no annotation override: the base default for every element |
| `JsonSchemaConverter.ResolveNullable` | src/main/java/de/uni/frankfurt/swagger/JsonSchemaConverter.java:79-83 | no annotation override: the base default for every element |
| `JsonSchemaConverter.ResolveMultipleOf` | src/main/java/de/uni/frankfurt/swagger/JsonSchemaConverter.java:85-89 | no annotation override: the base default for every element |
| `JsonSchemaConverter.ResolveMinimum` | src/main/java/de/uni/frankfurt/swagger/JsonSchemaConverter.java:111-115 | no annotation override: the base default for every element |
| `JsonSchemaConverter.ResolveExclusiveMinimum` | src/main/java/de/uni/frankfurt/swagger/JsonSchemaConverter.java:129-133 | no annotation override: the base default for every element |
| `JsonSchemaConverter.ResolveExclusiveMaximum` | src/main/java/de/uni/frankfurt/swagger/JsonSchemaConverter.java:135-139 | no annotation override: the base default for every element |
| `JsonSchemaConverter.ResolveMinProperties` | src/main/java/de/uni/frankfurt/swagger/JsonSchemaConverter.java:151-155 | no annotation override: the base default for every element |
| `JsonSchemaConverter.ResolveMaxProperties` | src/main/java/de/uni/frankfurt/swagger/JsonSchemaConverter.java:157-161 | no annotation override: the base default for every element |
| `JsonSchemaConverter.RequiredNames` | src/main/java/de/uni/frankfurt/swagger/JsonSchemaConverter.java:168-177 | the filter the collector computes; never longer than the field list |
| `JsonSchemaConverter.RequiredIndices` | src/main/java/de/uni/frankfurt/swagger/JsonSchemaConverter.java:170-176 | the positions of the collected fields, one per collected name |
| `JsonSchemaConverter.ResolveRequiredProperties` | src/main/java/de/uni/frankfurt/swagger/JsonSchemaConverter.java:163-181 | with `@JsonObject` on a class: a non-null list equal to `RequiredNames` of its fields, base default not consulted; on a non-class: the cast failure; without `@JsonObject`: base default |
| `JsonSchemaConverter.ResolveUnique` | src/main/java/de/uni/frankfurt/swagger/JsonSchemaConverter.java:226-232 | true exactly when `@JsonField` is present with `uniqueItems` set; false whenever `@JsonField` is absent |
| `JsonSchemaConverter.WithUniqueItems` | src/main/java/de/uni/frankfurt/swagger/JsonSchemaConverter.java:220-223 | other facets unchanged; flag set to true when `resolveUnique` holds, node unchanged otherwise; never changed to anything but true; true afterwards iff `resolveUnique` or already true |
| `JsonSchemaConverter.ResolveSchemaMembers` | src/main/java/de/uni/frankfurt/swagger/JsonSchemaConverter.java:215-224 | the node's new state is the base population of its old state, followed by `WithUniqueItems` |
| `Swagger.Schema.SetUniqueItems` | src/main/java/de/uni/frankfurt/swagger/JsonSchemaConverter.java:222 | sets only the `uniqueItems` flag, every other facet unchanged |
| `Swagger.Schema.Assign` | src/main/java/de/uni/frankfurt/swagger/JsonSchemaConverter.java:218 | the node takes on exactly the state the base population produced |
| `ConverterProperties.RequiredNamesMembership` | src/main/java/de/uni/frankfurt/swagger/JsonSchemaConverter.java:170-176 | a name is in the required list iff some field of that name has `@JsonField` with `required == true` |
| `ConverterProperties.RequiredNamesEmpty` | src/main/java/de/uni/frankfurt/swagger/JsonSchemaConverter.java:167-178 | the required list is empty iff no field is required (and it is still an empty list, not the base default) |
| `ConverterProperties.RequiredNamesInDeclarationOrder` | src/main/java/de/uni/frankfurt/swagger/JsonSchemaConverter.java:170-176 | the list is the field-name list restricted to strictly increasing positions; each position is a required field; every required field's position is among them |
| `ConverterProperties.FieldAnnotationIgnoresBase` | src/main/java/de/uni/frankfurt/swagger/JsonSchemaConverter.java:28-31 | with `@JsonField`, title, description, readOnly, writeOnly, maxLength, minLength, maximum, pattern and allowable values are the same for any two base resolvers |
| `ConverterProperties.ObjectAnnotationIgnoresBase` | src/main/java/de/uni/frankfurt/swagger/JsonSchemaConverter.java:32-35 | with `@JsonObject`, title, description and example are the same for any two base resolvers |
| `ConverterProperties.ExampleIgnoresFieldAnnotation` | src/main/java/de/uni/frankfurt/swagger/JsonSchemaConverter.java:62-66 | with `@JsonObject`, the example does not change whatever `@JsonField` the element carries |
| `ConverterProperties.UnannotatedElementDefers` | src/main/java/de/uni/frankfurt/swagger/JsonSchemaConverter.java:25-232 | with no annotation every overridable facet is the base default (minLength the base maxLength default), and the hook leaves the node as it is |
| `ConverterProperties.MinLengthDefaultIsMaxLengthDefault` | src/main/java/de/uni/frankfurt/swagger/JsonSchemaConverter.java:108 | without `@JsonField`, minLength depends only on the base maxLength default, not on the base minLength default |
| `ConverterProperties.MinLengthFallbackDiffers` | src/main/java/de/uni/frankfurt/swagger/JsonSchemaConverter.java:108 | a concrete base resolver and element for which resolved minLength is 10 while the base minLength default is 1 |
| `ConverterProperties.SentinelPolicies` | src/main/java/de/uni/frankfurt/swagger/JsonSchemaConverter.java:94-148 | for a present `@JsonField`, zero lengths and maximum give null, while an empty pattern and an empty enumerable are returned as they are |
| `ConverterProperties.PersonExample` | src/main/java/de/uni/frankfurt/swagger/JsonSchemaConverter.java:40-181 | `Person` with `@JsonObject` and a required `name` field gives title "Person", the example verbatim, required list ["name"], a null maxLength and the pattern verbatim, for any base resolver |

## Left out

- The constructor taking an `ObjectMapper` (lines 21-23): it only forwards to the library.
- `resolveDiscriminator` (lines 209-213): a pure pass-through whose argument and result types (`JavaType`, `ModelConverterContext`, `Discriminator`) belong to the library.
- The base `ModelResolver`'s own behaviour, including `super.resolveSchemaMembers`: library code that is not shown. Each hook is an arbitrary function, so the properties hold for every base resolver.
- Jackson introspection: reflection over library types, replaced by the element's optional annotation fields. Field order is the order of the element's `fields` sequence.
- The `@JsonField` and `@JsonObject` declarations are not part of this model. The attribute types are inferred from their use: lengths as Java `int`, maximum as an unbounded integer, pattern and example as text.
- `JsonSchemaConverter.ResolveMaximum`: `BigDecimal.valueOf` is modelled as the exact real value of the integer. Decimal scale and floating-point conversion are not modelled.
- The base resolver's example hook is declared in Java to return `Object`. The model narrows it to optional text.
- The schema node is reduced to the facets the converter resolves, plus `uniqueItems`. The rest of what the generic walker builds (type, properties, items) is not modelled, so "the hook changes no other field" is proved over these facets only.
- Serialisation of the finished schema, and any integration with an API framework.
