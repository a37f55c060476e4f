/** The JSON-like values the instrument builder handles, and
    convert_decimals: the structural walk that turns every Decimal leaf
    (what a streaming JSON parser yields for a non-integral number) into a
    float, copying lists and dicts member by member. */
module JsonValues {

  /** A parsed value. A dict keeps its entries in insertion order. Decimal
      and float numbers are both carried as reals. */
  datatype Json =
    | JNull
    | JBool(b: bool)
    | JInt(i: int)
    | JFloat(f: real)
    | JDecimal(d: real)
    | JString(s: string)
    | JArray(items: seq<Json>)
    | JObject(fields: seq<(string, Json)>)

  /** A value with no Decimal anywhere inside it. */
  ghost predicate NoDecimals(j: Json)
    decreases j
  {
    match j
    case JDecimal(_) => false
    case JArray(xs) => forall i :: 0 <= i < |xs| ==> NoDecimals(xs[i])
    case JObject(fs) => forall i :: 0 <= i < |fs| ==> NoDecimals(fs[i].1)
    case _ => true
  }

  /** b is a with some (possibly none) of its Decimal leaves replaced by
      floats of the same value, and nothing else changed: same list lengths,
      same dict keys in the same order, same other leaves. */
  ghost predicate Similar(a: Json, b: Json)
    decreases a
  {
    match a
    case JDecimal(d) => b == JDecimal(d) || b == JFloat(d)
    case JArray(xs) =>
      b.JArray? && |b.items| == |xs| &&
      forall i :: 0 <= i < |xs| ==> Similar(xs[i], b.items[i])
    case JObject(fs) =>
      b.JObject? && |b.fields| == |fs| &&
      forall i :: 0 <= i < |fs| ==> fs[i].0 == b.fields[i].0 && Similar(fs[i].1, b.fields[i].1)
    case _ => b == a
  }

  /** convert_decimals: lists and dicts are rebuilt from their converted
      members, a Decimal becomes the float of its value, every other value
      is returned as it is. */
  function ConvertDecimals(j: Json): (r: Json)
    ensures r.JArray? <==> j.JArray?
    ensures r.JObject? <==> j.JObject?
    ensures j.JArray? ==> |r.items| == |j.items|
    ensures j.JObject? ==> |r.fields| == |j.fields|
    ensures j.JObject? ==> forall i :: 0 <= i < |j.fields| ==> r.fields[i].0 == j.fields[i].0
    ensures j.JDecimal? ==> r == JFloat(j.d)
    decreases j
  {
    match j
    case JArray(xs) =>
      JArray(seq(|xs|, i requires 0 <= i < |xs| => ConvertDecimals(xs[i])))
    case JObject(fs) =>
      JObject(seq(|fs|, i requires 0 <= i < |fs| => (fs[i].0, ConvertDecimals(fs[i].1))))
    case JDecimal(d) => JFloat(d)
    case _ => j
  }

  /** Every value is similar to itself. */
  lemma {:induction false} SimilarReflexive(j: Json)
    ensures Similar(j, j)
    decreases j
  {
    match j
    case JArray(xs) =>
      forall i | 0 <= i < |xs| ensures Similar(xs[i], xs[i]) {
        SimilarReflexive(xs[i]);
      }
    case JObject(fs) =>
      forall i | 0 <= i < |fs| ensures Similar(fs[i].1, fs[i].1) {
        SimilarReflexive(fs[i].1);
      }
    case _ =>
  }

  /** The conversion replaces Decimal leaves and changes nothing else. */
  lemma {:induction false} ConvertSimilar(j: Json)
    ensures Similar(j, ConvertDecimals(j))
    decreases j
  {
    match j
    case JArray(xs) =>
      var r := ConvertDecimals(j);
      forall i | 0 <= i < |xs| ensures Similar(xs[i], r.items[i]) {
        ConvertSimilar(xs[i]);
      }
    case JObject(fs) =>
      var r := ConvertDecimals(j);
      forall i | 0 <= i < |fs| ensures Similar(fs[i].1, r.fields[i].1) {
        ConvertSimilar(fs[i].1);
      }
    case _ =>
  }

  /** No Decimal is left anywhere in the converted value. */
  lemma {:induction false} ConvertClears(j: Json)
    ensures NoDecimals(ConvertDecimals(j))
    decreases j
  {
    match j
    case JArray(xs) =>
      var r := ConvertDecimals(j);
      forall i | 0 <= i < |xs| ensures NoDecimals(r.items[i]) {
        ConvertClears(xs[i]);
      }
    case JObject(fs) =>
      var r := ConvertDecimals(j);
      forall i | 0 <= i < |fs| ensures NoDecimals(r.fields[i].1) {
        ConvertClears(fs[i].1);
      }
    case _ =>
  }

  /** The converted value is the only Decimal-free value similar to the
      input: together with ConvertSimilar and ConvertClears this pins the
      conversion down completely. */
  lemma {:induction false} ConvertUnique(a: Json, b: Json)
    requires Similar(a, b) && NoDecimals(b)
    ensures b == ConvertDecimals(a)
    decreases a
  {
    match a
    case JArray(xs) =>
      var r := ConvertDecimals(a);
      forall i | 0 <= i < |xs| ensures b.items[i] == r.items[i] {
        ConvertUnique(xs[i], b.items[i]);
      }
      assert b.items == r.items;
    case JObject(fs) =>
      var r := ConvertDecimals(a);
      forall i | 0 <= i < |fs| ensures b.fields[i] == r.fields[i] {
        ConvertUnique(fs[i].1, b.fields[i].1);
      }
      assert b.fields == r.fields;
    case _ =>
  }

  /** A value without Decimals comes back unchanged. */
  lemma ConvertFixed(j: Json)
    requires NoDecimals(j)
    ensures ConvertDecimals(j) == j
  {
    SimilarReflexive(j);
    ConvertUnique(j, j);
  }

  /** Converting twice is converting once. */
  lemma ConvertIdempotent(j: Json)
    ensures ConvertDecimals(ConvertDecimals(j)) == ConvertDecimals(j)
  {
    ConvertClears(j);
    ConvertFixed(ConvertDecimals(j));
  }
}
