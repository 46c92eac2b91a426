/** The values the mapper builds: plain objects, arrays, attribute strings,
    occurrences taken over from the tree unchanged, and `undefined`. */
module JsValue {
  import opened XmlTree

  datatype Value =
    | Undefined                     // a property read that found nothing
    | Str(s: string)                // an attribute value, kept as text
    | Copied(node: Node)            // an occurrence of the tree, shared as it is
    | List(items: seq<Value>)       // an array, in push order
    | Record(fields: Object)        // a plain object

  /** A plain object: property name to value. */
  type Object = map<string, Value>

  /** The merge `extend(a, b)`: a new object holding the properties of both,
      where `b` wins on a property that both have. */
  function Extend(a: Object, b: Object): (r: Object)
    ensures r.Keys == a.Keys + b.Keys
    ensures forall k :: k in b ==> r[k] == b[k]
    ensures forall k :: k in a && k !in b ==> r[k] == a[k]
  {
    a + b
  }

  /** When the two objects share no property, the merge does not depend on
      which one comes first. */
  lemma ExtendDisjointCommutes(a: Object, b: Object)
    requires a.Keys !! b.Keys
    ensures Extend(a, b) == Extend(b, a)
  {
    assert Extend(a, b).Keys == Extend(b, a).Keys;
  }

  /** Merging in an empty object changes nothing. */
  lemma ExtendWithNothing(a: Object)
    ensures Extend(a, map[]) == a
  {
    assert Extend(a, map[]).Keys == a.Keys;
  }

  /** Four objects with pairwise distinct properties: merging them into
      `{}` one after the other keeps each one's values, and the reverse
      order of merging gives the same object. */
  lemma ExtendFourDisjoint(a: Object, b: Object, c: Object, d: Object)
    requires a.Keys !! b.Keys && a.Keys !! c.Keys && a.Keys !! d.Keys
    requires b.Keys !! c.Keys && b.Keys !! d.Keys && c.Keys !! d.Keys
    ensures var r := Extend(Extend(Extend(Extend(map[], a), b), c), d);
            && r.Keys == a.Keys + b.Keys + c.Keys + d.Keys
            && (forall k :: k in a ==> r[k] == a[k])
            && (forall k :: k in b ==> r[k] == b[k])
            && (forall k :: k in c ==> r[k] == c[k])
            && (forall k :: k in d ==> r[k] == d[k])
            && r == Extend(Extend(Extend(d, c), b), a)
  {
    var r := Extend(Extend(Extend(Extend(map[], a), b), c), d);
    var s := Extend(Extend(Extend(d, c), b), a);
    var ab := Extend(Extend(map[], a), b);
    var abc := Extend(ab, c);
    assert ab.Keys == a.Keys + b.Keys;
    assert abc.Keys == a.Keys + b.Keys + c.Keys;
    forall k | k in r ensures k in s && r[k] == s[k] {
      if k in d {
      } else if k in c {
      } else if k in b {
        assert abc[k] == ab[k];
      } else {
        assert k in a;
        assert abc[k] == ab[k];
      }
    }
    assert r.Keys == s.Keys;
  }
}
