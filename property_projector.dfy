/**
 * Projection of a bulk property-query result: a list of objects, each with
 * an ordered list of (name, val) entries whose names may be dotted paths
 * ("runtime.host") and may repeat. Names are opaque keys; values are
 * passed through untouched, whatever their type.
 */
module PropertyProjector {
  import opened Common

  /** One (name, val) entry of an object's propSet. */
  datatype DynamicProperty<V> = DynamicProperty(name: string, val: V)

  /** One object of a query result. */
  datatype ObjectContent<V> = ObjectContent(propSet: seq<DynamicProperty<V>>)

  // ---------------------------------------------------------------------
  // propset_dict
  // ---------------------------------------------------------------------

  /** `propset_dict`: the dictionary built from the (name, val) pairs in
      order, so a later entry with the same name replaces an earlier one. */
  function PropsetDict<V>(propSet: seq<DynamicProperty<V>>): (m: map<string, V>)
    ensures forall n :: n in m <==> exists i :: 0 <= i < |propSet| && propSet[i].name == n
    decreases |propSet|
  {
    if propSet == [] then map[]
    else
      var n := |propSet| - 1;
      var m := PropsetDict(propSet[..n]);
      assert forall j :: 0 <= j < n ==> propSet[j] == propSet[..n][j];
      m[propSet[n].name := propSet[n].val]
  }

  /** Entry `i` carries the name and no later entry does. */
  predicate IsLastWithName<V>(propSet: seq<DynamicProperty<V>>, name: string, i: int) {
    0 <= i < |propSet| && propSet[i].name == name && forall j :: i < j < |propSet| ==> propSet[j].name != name
  }

  /** Under each name the dictionary holds the val of the LAST entry with
      that name. */
  lemma {:induction false} PropsetDictLastWins<V>(propSet: seq<DynamicProperty<V>>, name: string)
    requires name in PropsetDict(propSet)
    ensures exists i :: IsLastWithName(propSet, name, i) && propSet[i].val == PropsetDict(propSet)[name]
    decreases |propSet|
  {
    var n := |propSet| - 1;
    var prefix := propSet[..n];
    assert PropsetDict(propSet) == PropsetDict(prefix)[propSet[n].name := propSet[n].val];
    if propSet[n].name == name {
      assert IsLastWithName(propSet, name, n);
    } else {
      PropsetDictLastWins(prefix, name);
      var i :| IsLastWithName(prefix, name, i) && prefix[i].val == PropsetDict(prefix)[name];
      assert forall j :: 0 <= j < n ==> propSet[j] == prefix[j];
      assert IsLastWithName(propSet, name, i);
    }
  }

  /** With no repeated names, every entry's val is found under its name. */
  lemma PropsetDictOfDistinctNames<V>(propSet: seq<DynamicProperty<V>>, i: int)
    requires forall a, b :: 0 <= a < b < |propSet| ==> propSet[a].name != propSet[b].name
    requires 0 <= i < |propSet|
    ensures propSet[i].name in PropsetDict(propSet)
    ensures PropsetDict(propSet)[propSet[i].name] == propSet[i].val
  {
    PropsetDictLastWins(propSet, propSet[i].name);
  }

  // ---------------------------------------------------------------------
  // property_from_property_set
  // ---------------------------------------------------------------------

  /** `_property_from_propSet`: the first entry of one propSet carrying the name. */
  function PropertyFromPropSet<V>(propSet: seq<DynamicProperty<V>>, name: string): (r: Option<DynamicProperty<V>>)
    ensures r.None? <==> forall i :: 0 <= i < |propSet| ==> propSet[i].name != name
    ensures r.Some? ==> exists i :: 0 <= i < |propSet| && propSet[i] == r.value && r.value.name == name
                          && forall j :: 0 <= j < i ==> propSet[j].name != name
    decreases |propSet|
  {
    if propSet == [] then None
    else if propSet[0].name == name then Some(propSet[0])
    else
      var r := PropertyFromPropSet(propSet[1..], name);
      assert forall j :: 0 < j < |propSet| ==> propSet[j] == propSet[1..][j - 1];
      r
  }

  /** `property_from_property_set`: objects in order, and within each
      object its propSet in order; the first entry carrying the name wins,
      and the raw entry is returned. */
  function PropertyFromPropertySet<V>(name: string, objects: seq<ObjectContent<V>>): (r: Option<DynamicProperty<V>>)
    ensures r.None? <==> forall o, i :: 0 <= o < |objects| && 0 <= i < |objects[o].propSet| ==> objects[o].propSet[i].name != name
    ensures r.Some? ==> r.value.name == name
                        && exists o :: 0 <= o < |objects| && r == PropertyFromPropSet(objects[o].propSet, name)
                             && forall p :: 0 <= p < o ==> PropertyFromPropSet(objects[p].propSet, name).None?
    decreases |objects|
  {
    if objects == [] then None
    else
      var first := PropertyFromPropSet(objects[0].propSet, name);
      if first.Some? then first
      else
        var r := PropertyFromPropertySet(name, objects[1..]);
        assert forall p :: 0 < p < |objects| ==> objects[p] == objects[1..][p - 1];
        r
  }

  /** All propSets of a result, one after another. */
  function Flatten<V>(objects: seq<ObjectContent<V>>): seq<DynamicProperty<V>> {
    if objects == [] then [] else objects[0].propSet + Flatten(objects[1..])
  }

  lemma {:induction false} PropertyFromPropSetAppend<V>(a: seq<DynamicProperty<V>>, b: seq<DynamicProperty<V>>, name: string)
    ensures PropertyFromPropSet(a + b, name)
            == if PropertyFromPropSet(a, name).Some? then PropertyFromPropSet(a, name) else PropertyFromPropSet(b, name)
    decreases |a|
  {
    if a == [] {
      assert a + b == b;
    } else {
      assert (a + b)[0] == a[0];
      assert (a + b)[1..] == a[1..] + b;
      PropertyFromPropSetAppend(a[1..], b, name);
    }
  }

  /** Searching object by object is the same as searching every entry of
      the result in order: the first entry with the name, across objects. */
  lemma {:induction false} PropertyFromPropertySetIsFirstOverall<V>(name: string, objects: seq<ObjectContent<V>>)
    ensures PropertyFromPropertySet(name, objects) == PropertyFromPropSet(Flatten(objects), name)
    decreases |objects|
  {
    if objects != [] {
      PropertyFromPropertySetIsFirstOverall(name, objects[1..]);
      PropertyFromPropSetAppend(objects[0].propSet, Flatten(objects[1..]), name);
    }
  }

  /** With no repeated names, the dictionary and the first-match lookup
      agree on every name. */
  lemma PropsetDictAgreesWithLookup<V>(propSet: seq<DynamicProperty<V>>, name: string)
    requires forall a, b :: 0 <= a < b < |propSet| ==> propSet[a].name != propSet[b].name
    ensures name in PropsetDict(propSet) <==> PropertyFromPropSet(propSet, name).Some?
    ensures name in PropsetDict(propSet) ==> PropsetDict(propSet)[name] == PropertyFromPropSet(propSet, name).value.val
  {
    var r := PropertyFromPropSet(propSet, name);
    if r.Some? {
      var i :| 0 <= i < |propSet| && propSet[i] == r.value && r.value.name == name;
      PropsetDictOfDistinctNames(propSet, i);
    }
  }

  // ---------------------------------------------------------------------
  // Cases from the test suite
  // ---------------------------------------------------------------------

  /** A managed-object reference value, or a plain string value. */
  datatype TestVal = MoRef(value: string) | Text(text: string)

  function GoodObjects(): seq<ObjectContent<TestVal>> {
    [ObjectContent([DynamicProperty("name", MoRef("vm-123"))]),
     ObjectContent([DynamicProperty("foo", MoRef("bar1")),
                    DynamicProperty("runtime.host", MoRef("host-123")),
                    DynamicProperty("foo", MoRef("bar2"))]),
     ObjectContent([DynamicProperty("something", MoRef("thing"))])]
  }

  function BadObjects(): seq<ObjectContent<TestVal>> {
    [ObjectContent([DynamicProperty("name", MoRef("vm-123"))]),
     ObjectContent([DynamicProperty("foo", Text("bar1")),
                    DynamicProperty("foo", Text("bar2"))]),
     ObjectContent([DynamicProperty("something", MoRef("thing"))])]
  }

  /** "runtime.host" is found in the second object of the good result and
      nowhere in the bad one. */
  lemma TestPropertyFromPropertySet()
    ensures PropertyFromPropertySet("runtime.host", GoodObjects()) == Some(DynamicProperty("runtime.host", MoRef("host-123")))
    ensures PropertyFromPropertySet("runtime.host", BadObjects()) == None
  {
    var good, bad := GoodObjects(), BadObjects();
    assert PropertyFromPropSet(good[0].propSet, "runtime.host") == None;
    assert PropertyFromPropSet(good[1].propSet, "runtime.host") == Some(DynamicProperty("runtime.host", MoRef("host-123")));
    assert PropertyFromPropertySet("runtime.host", good[1..]) == Some(DynamicProperty("runtime.host", MoRef("host-123")));
    assert bad[1..][1..][1..] == [];
    assert PropertyFromPropertySet("runtime.host", bad[1..][1..]) == None;
  }

  /** The first "foo" entry wins, in either result. */
  lemma TestPropertyFromPropertySetFirstMatch()
    ensures PropertyFromPropertySet("foo", GoodObjects()) == Some(DynamicProperty("foo", MoRef("bar1")))
    ensures PropertyFromPropertySet("foo", BadObjects()) == Some(DynamicProperty("foo", Text("bar1")))
  {
    var good, bad := GoodObjects(), BadObjects();
    assert PropertyFromPropertySet("foo", good[1..]) == Some(DynamicProperty("foo", MoRef("bar1")));
    assert PropertyFromPropertySet("foo", bad[1..]) == Some(DynamicProperty("foo", Text("bar1")));
  }

  lemma TestPropsetDictSimple()
    ensures var d := PropsetDict([DynamicProperty("foo", Text("bar"))]);
            "foo" in d && d["foo"] == Text("bar")
  {
    assert [DynamicProperty("foo", Text("bar"))][..0] == [];
  }

  lemma TestPropsetDictComplex()
    ensures var d := PropsetDict([DynamicProperty("foo", Text("bar")),
                                  DynamicProperty("some.thing", MoRef("else")),
                                  DynamicProperty("another.thing", Text("value"))]);
            && "foo" in d && d["foo"] == Text("bar")
            && "some.thing" in d && d["some.thing"] == MoRef("else")
            && "another.thing" in d && d["another.thing"] == Text("value")
  {
    var ps := [DynamicProperty("foo", Text("bar")),
               DynamicProperty("some.thing", MoRef("else")),
               DynamicProperty("another.thing", Text("value"))];
    assert ps[..2][..1] == [ps[0]];
    assert ps[..2] == [ps[0], ps[1]];
    assert ps[..2][..1] == [ps[0]] && [ps[0]][..0] == [];
  }
}
