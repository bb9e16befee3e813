/** Properties of the converter that relate several resolvers, several inputs or several base resolvers. */
module ConverterProperties {
  import opened Wrappers
  import opened Annotations
  import opened Swagger
  import opened JsonSchemaConverter

  // ---------------------------------------------------------------------------
  // The required-property list is an exact, order-preserving filter.

  /** A name is collected exactly when some field with that name is required. */
  lemma {:induction false} RequiredNamesMembership(fields: seq<Annotated>, n: string)
    ensures n in RequiredNames(fields) <==> exists i :: 0 <= i < |fields| && IsRequired(fields[i]) && fields[i].name == n
  {
    if fields != [] {
      var k := |fields| - 1;
      var init := fields[..k];
      RequiredNamesMembership(init, n);
      assert forall i :: 0 <= i < k ==> init[i] == fields[i];
      if exists i :: 0 <= i < |fields| && IsRequired(fields[i]) && fields[i].name == n {
        var i :| 0 <= i < |fields| && IsRequired(fields[i]) && fields[i].name == n;
        if i < k {
          assert IsRequired(init[i]) && init[i].name == n;
        }
      }
    }
  }

  /** The list is empty exactly when no field is required (and it is still a list, not the default). */
  lemma {:induction false} RequiredNamesEmpty(fields: seq<Annotated>)
    ensures RequiredNames(fields) == [] <==> forall i :: 0 <= i < |fields| ==> !IsRequired(fields[i])
  {
    if fields != [] {
      var k := |fields| - 1;
      var init := fields[..k];
      RequiredNamesEmpty(init);
      assert forall i :: 0 <= i < k ==> init[i] == fields[i];
    }
  }

  /** `xs` is `ys` restricted to the strictly increasing positions `idx`. */
  ghost predicate SubsequenceAt<T>(xs: seq<T>, ys: seq<T>, idx: seq<int>) {
    && |idx| == |xs|
    && (forall k :: 0 <= k < |idx| ==> 0 <= idx[k] < |ys| && xs[k] == ys[idx[k]])
    && (forall k, l :: 0 <= k < l < |idx| ==> idx[k] < idx[l])
  }

  /**
   * The collected names are the field names at the positions of the required
   * fields, in declaration order: a subsequence of the field-name list that
   * leaves out exactly the fields that are not required.
   */
  lemma {:induction false} RequiredNamesInDeclarationOrder(fields: seq<Annotated>)
    ensures SubsequenceAt(RequiredNames(fields), Names(fields), RequiredIndices(fields))
    ensures forall k :: 0 <= k < |RequiredIndices(fields)| ==> IsRequired(fields[RequiredIndices(fields)[k]])
    ensures forall i :: 0 <= i < |fields| && IsRequired(fields[i]) ==> i in RequiredIndices(fields)
  {
    if fields != [] {
      var n := |fields| - 1;
      var init := fields[..n];
      RequiredNamesInDeclarationOrder(init);
      assert forall i :: 0 <= i < n ==> init[i] == fields[i];
      var idx0, idx := RequiredIndices(init), RequiredIndices(fields);
      var xs0, xs := RequiredNames(init), RequiredNames(fields);
      var ys := Names(fields);
      assert forall k :: 0 <= k < |idx0| ==> idx[k] == idx0[k] && xs[k] == xs0[k];
      assert forall k :: 0 <= k < |idx0| ==> idx0[k] < n && ys[idx0[k]] == fields[idx0[k]].name;
    }
  }

  // ---------------------------------------------------------------------------
  // When the base default is consulted.

  /** With `@JsonField`, no field-level facet depends on the base resolver. */
  lemma FieldAnnotationIgnoresBase(b1: ModelResolver, b2: ModelResolver, a: Annotated)
    requires a.jsonField.Some?
    ensures ResolveTitle(b1, a) == ResolveTitle(b2, a)
    ensures ResolveDescription(b1, a) == ResolveDescription(b2, a)
    ensures ResolveReadOnly(b1, a) == ResolveReadOnly(b2, a)
    ensures ResolveWriteOnly(b1, a) == ResolveWriteOnly(b2, a)
    ensures ResolveMaxLength(b1, a) == ResolveMaxLength(b2, a)
    ensures ResolveMinLength(b1, a) == ResolveMinLength(b2, a)
    ensures ResolveMaximum(b1, a) == ResolveMaximum(b2, a)
    ensures ResolvePattern(b1, a) == ResolvePattern(b2, a)
    ensures ResolveAllowableValues(b1, a) == ResolveAllowableValues(b2, a)
  {
  }

  /** With `@JsonObject`, title, description and example do not depend on the base resolver. */
  lemma ObjectAnnotationIgnoresBase(b1: ModelResolver, b2: ModelResolver, a: Annotated)
    requires a.jsonObject.Some?
    ensures ResolveTitle(b1, a) == ResolveTitle(b2, a)
    ensures ResolveDescription(b1, a) == ResolveDescription(b2, a)
    ensures ResolveExample(b1, a) == ResolveExample(b2, a)
  {
  }

  /** The example depends on object-level metadata only: replacing the field annotation changes nothing. */
  lemma ExampleIgnoresFieldAnnotation(base: ModelResolver, a: Annotated, f: Option<JsonField>)
    requires a.jsonObject.Some?
    ensures ResolveExample(base, a.(jsonField := f)) == ResolveExample(base, a)
  {
  }

  /**
   * An element with neither annotation gets every facet from the base
   * resolver, except minLength, which gets the base *maxLength* default, and
   * uniqueItems, which the hook leaves as the base step produced it.
   */
  lemma UnannotatedElementDefers(base: ModelResolver, a: Annotated, v: SchemaValue)
    requires a.jsonField.None? && a.jsonObject.None?
    ensures ResolveTitle(base, a) == base.title(a)
    ensures ResolveDescription(base, a) == base.description(a)
    ensures ResolveExample(base, a) == base.example(a)
    ensures ResolveReadOnly(base, a) == base.readOnly(a)
    ensures ResolveWriteOnly(base, a) == base.writeOnly(a)
    ensures ResolveMaxLength(base, a) == base.maxLength(a)
    ensures ResolveMinLength(base, a) == base.maxLength(a)
    ensures ResolveMaximum(base, a) == base.maximum(a)
    ensures ResolvePattern(base, a) == base.pattern(a)
    ensures ResolveAllowableValues(base, a) == base.allowableValues(a)
    ensures !ResolveUnique(a) && WithUniqueItems(v, a) == v
  {
  }

  // ---------------------------------------------------------------------------
  // The minLength fallback quirk.

  /** A base resolver with no defaults at all. */
  function NoDefaults(): ModelResolver {
    ModelResolver(
      _ => None, _ => None, _ => None, _ => None, _ => None, _ => None, _ => None,
      _ => None, _ => None, _ => None, _ => None, _ => None, _ => None, _ => None,
      _ => None, _ => None, _ => None, _ => None, _ => None, (v, _) => v)
  }

  /**
   * Without `@JsonField`, minLength is decided by the base maxLength default
   * alone: two base resolvers that agree on maxLength give the same minLength,
   * whatever their minLength defaults are.
   */
  lemma MinLengthDefaultIsMaxLengthDefault(b1: ModelResolver, b2: ModelResolver, a: Annotated)
    requires a.jsonField.None?
    requires b1.maxLength(a) == b2.maxLength(a)
    ensures ResolveMinLength(b1, a) == ResolveMinLength(b2, a)
  {
  }

  /** An input on which the minLength fallback differs from the base minLength default. */
  lemma MinLengthFallbackDiffers()
    ensures var base := NoDefaults().(minLength := _ => Some(1), maxLength := _ => Some(10));
            var a := Annotated("s", None, None, AnnotatedMember);
            ResolveMinLength(base, a) == Some(10) && base.minLength(a) == Some(1)
  {
  }

  // ---------------------------------------------------------------------------
  // The sentinel policies side by side: 0 is null, "" and [] are kept.

  lemma SentinelPolicies(base: ModelResolver, a: Annotated)
    requires a.jsonField.Some?
    requires a.jsonField.value.maxLength == 0 && a.jsonField.value.minLength == 0 && a.jsonField.value.maximum == 0
    requires a.jsonField.value.pattern == "" && a.jsonField.value.enumerable == []
    ensures ResolveMaxLength(base, a) == None && ResolveMinLength(base, a) == None && ResolveMaximum(base, a) == None
    ensures ResolvePattern(base, a) == Some("") && ResolveAllowableValues(base, a) == Some([])
  {
  }

  // ---------------------------------------------------------------------------
  // An end-to-end example: a `Person` type with one required `name` field.

  lemma PersonExample(base: ModelResolver)
    ensures
      var nameMeta := JsonField("", "", true, 0, 0, 0, "^[A-Z]", [], false, false, false);
      var name := Annotated("name", Some(nameMeta), None, AnnotatedMember);
      var person := Annotated("Person", None, Some(JsonObject("Person", "", "{\"name\":\"Jo\"}")), AnnotatedClass([name]));
      && ResolveTitle(base, person) == Some("Person")
      && ResolveExample(base, person) == Some("{\"name\":\"Jo\"}")
      && RequiredNames(person.kind.fields) == ["name"]
      && ResolveMaxLength(base, name) == None
      && ResolvePattern(base, name) == Some("^[A-Z]")
  {
  }

  // ---------------------------------------------------------------------------
  // The hook on a fresh node.

  /**
   * Runs the hook on a new node with a base population that leaves the node
   * as it is: an element annotated with `uniqueItems` gets the flag, an
   * unannotated one keeps the flag it had, and the facets never change.
   */
  method HookOnFreshNode(facets: Facets, flag: Option<bool>) {
    var base := NoDefaults();
    var meta := JsonField("", "", false, 0, 0, 0, "", [], false, false, true);
    var unique := Annotated("tags", Some(meta), None, AnnotatedMember);
    var plain := Annotated("name", None, None, AnnotatedMember);

    var node := new Schema(facets, flag);
    ResolveSchemaMembers(base, node, unique);
    assert node.facets == facets && node.uniqueItems == Some(true);

    var other := new Schema(facets, flag);
    ResolveSchemaMembers(base, other, plain);
    assert other.facets == facets && other.uniqueItems == flag;
  }
}
