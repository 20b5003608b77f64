/** The in-memory property store of the LightBnB data-access layer
    (`addProperty`): a table of property objects keyed by number. A new
    property is keyed by the number of entries plus one, and its `id` field is
    set to that key in place. Loading the initial table from its JSON fixture
    is not part of this model; the table starts from any given map. */
module PropertyStore {

  /** A property listing. Only the field the store writes is modelled. */
  class Property {
    var id: int

    constructor (id: int)
      ensures this.id == id
    {
      this.id := id;
    }
  }

  /** The keys are exactly 1 to the number of entries, as in a table every
      entry of which was added by `AddProperty`. */
  ghost predicate DenseKeys<V>(m: map<int, V>) {
    forall k :: k in m <==> 1 <= k <= |m|
  }

  /** Over dense keys the next key, count plus one, is fresh: adding under it
      grows the table by one entry and keeps the keys dense. */
  lemma NextKeyIsFresh<V>(m: map<int, V>, v: V)
    requires DenseKeys(m)
    ensures |m| + 1 !in m
    ensures |m[|m| + 1 := v]| == |m| + 1
    ensures DenseKeys(m[|m| + 1 := v])
  {
    var m' := m[|m| + 1 := v];
    assert |m| + 1 !in m;
    forall k
      ensures k in m' <==> 1 <= k <= |m'|
    {
      if k == |m| + 1 {
        assert k in m';
      }
    }
  }

  /** Without dense keys the next key can already be taken; adding under it
      then replaces that entry and the table does not grow. */
  lemma TakenKeyIsReplaced<V>(m: map<int, V>, v: V)
    requires |m| + 1 in m
    ensures |m[|m| + 1 := v]| == |m|
    ensures m[|m| + 1 := v][|m| + 1] == v
  {
    assert m[|m| + 1 := v].Keys == m.Keys;
  }

  class PropertyTable {
    var properties: map<int, Property>

    constructor (initial: map<int, Property>)
      ensures properties == initial
    {
      properties := initial;
    }

    /** Every stored property's `id` is the key it is stored under. */
    ghost predicate IdsMatchKeys()
      reads this, properties.Values
    {
      forall k :: k in properties ==> properties[k].id == k
    }

    /** Sets `property.id` to the number of entries plus one, stores the same
        object under that key and returns it. */
    method AddProperty(property: Property) returns (added: Property)
      modifies this, property
      ensures added == property
      ensures property.id == old(|properties|) + 1
      ensures properties == old(properties)[property.id := property]
      ensures forall k :: k in old(properties) && k != property.id ==> k in properties && properties[k] == old(properties)[k]
      ensures DenseKeys(old(properties)) ==> |properties| == old(|properties|) + 1 && DenseKeys(properties)
      ensures old(IdsMatchKeys()) && property !in old(properties.Values) ==> IdsMatchKeys()
    {
      if DenseKeys(properties) {
        NextKeyIsFresh(properties, property);
      }
      var propertyId := |properties| + 1;
      property.id := propertyId;
      properties := properties[propertyId := property];
      added := property;
    }
  }
}
