/** Resolution of an aggregate's partition key from its one attributed property. */
module PartitionKeys {
  import opened Wrappers
  import opened EventModel

  /** The properties that carry the partition-key attribute, in declaration order (the `Where` filter). */
  function PartitionKeyProperties(properties: seq<Property>): (r: seq<Property>)
    ensures |r| <= |properties|
    ensures forall k :: 0 <= k < |r| ==> r[k].isPartitionKey
  {
    if properties == [] then []
    else (if properties[0].isPartitionKey then [properties[0]] else []) + PartitionKeyProperties(properties[1..])
  }

  /** Property `i` is the only one that carries the partition-key attribute. */
  predicate SoleKeyProperty(properties: seq<Property>, i: int) {
    0 <= i < |properties| && properties[i].isPartitionKey &&
    forall j :: 0 <= j < |properties| && j != i ==> !properties[j].isPartitionKey
  }

  /** Two distinct properties carry the partition-key attribute. */
  predicate SeveralKeyProperties(properties: seq<Property>) {
    exists i, j :: 0 <= i < j < |properties| && properties[i].isPartitionKey && properties[j].isPartitionKey
  }

  /** The filter keeps nothing exactly when no property carries the attribute. */
  lemma {:induction false} NoKeyProperties(properties: seq<Property>)
    ensures PartitionKeyProperties(properties) == [] <==>
              forall i :: 0 <= i < |properties| ==> !properties[i].isPartitionKey
  {
    if properties != [] {
      NoKeyProperties(properties[1..]);
      assert forall i :: 1 <= i < |properties| ==> properties[i] == properties[1..][i - 1];
    }
  }

  /** The filter keeps more than one property exactly when two distinct properties carry the attribute. */
  lemma {:induction false} SeveralKeyPropertiesCount(properties: seq<Property>)
    ensures |PartitionKeyProperties(properties)| > 1 <==> SeveralKeyProperties(properties)
  {
    if properties != [] {
      var tail := properties[1..];
      SeveralKeyPropertiesCount(tail);
      NoKeyProperties(tail);
      if SeveralKeyProperties(properties) {
        var i, j :| 0 <= i < j < |properties| && properties[i].isPartitionKey && properties[j].isPartitionKey;
        assert tail[j - 1].isPartitionKey;
        if i > 0 {
          assert tail[i - 1].isPartitionKey;
        }
      }
      if SeveralKeyProperties(tail) {
        var i, j :| 0 <= i < j < |tail| && tail[i].isPartitionKey && tail[j].isPartitionKey;
        assert properties[i + 1].isPartitionKey && properties[j + 1].isPartitionKey;
      }
      if properties[0].isPartitionKey && PartitionKeyProperties(tail) != [] {
        var j :| 0 <= j < |tail| && tail[j].isPartitionKey;
        assert properties[j + 1].isPartitionKey;
      }
    }
  }

  /** When the filter keeps exactly one property, it is the only attributed property. */
  lemma {:induction false} SoleKeyPropertyCount(properties: seq<Property>)
    requires |PartitionKeyProperties(properties)| == 1
    ensures exists i :: SoleKeyProperty(properties, i) && PartitionKeyProperties(properties) == [properties[i]]
  {
    var tail := properties[1..];
    assert forall i :: 1 <= i < |properties| ==> properties[i] == tail[i - 1];
    if properties[0].isPartitionKey {
      NoKeyProperties(tail);
      assert SoleKeyProperty(properties, 0);
    } else {
      SoleKeyPropertyCount(tail);
      var i :| SoleKeyProperty(tail, i) && PartitionKeyProperties(tail) == [tail[i]];
      assert SoleKeyProperty(properties, i + 1);
    }
  }

  /**
   * GetEventItemPartitionKeyValue: no attributed property, several attributed
   * properties and a null value are three distinct errors; otherwise the one
   * attributed property's value, in string form.
   */
  function GetEventItemPartitionKeyValue(aggregate: Aggregate): (r: Result<string, StoreError>)
    ensures r == Failure(PartitionKeyAttributeRequired(aggregate.typeName)) <==>
              forall i :: 0 <= i < |aggregate.properties| ==> !aggregate.properties[i].isPartitionKey
    ensures r == Failure(InvalidPartitionKeyAttributeCombination(aggregate.typeName)) <==>
              SeveralKeyProperties(aggregate.properties)
    ensures r.Failure? && r.error.InvalidPartitionKeyValue? <==>
              exists i :: SoleKeyProperty(aggregate.properties, i) && aggregate.properties[i].value.None?
    ensures r.Failure? && r.error.InvalidPartitionKeyValue? ==>
              exists i :: SoleKeyProperty(aggregate.properties, i) &&
                r.error == InvalidPartitionKeyValue(aggregate.properties[i].name, aggregate.typeName)
    ensures r.Success? <==>
              exists i :: SoleKeyProperty(aggregate.properties, i) && aggregate.properties[i].value.Some?
    ensures r.Success? ==>
              exists i :: SoleKeyProperty(aggregate.properties, i) && aggregate.properties[i].value == Some(r.value)
  {
    NoKeyProperties(aggregate.properties);
    SeveralKeyPropertiesCount(aggregate.properties);
    var keyProperties := PartitionKeyProperties(aggregate.properties);
    if |keyProperties| == 0 then
      Failure(PartitionKeyAttributeRequired(aggregate.typeName))
    else if |keyProperties| > 1 then
      Failure(InvalidPartitionKeyAttributeCombination(aggregate.typeName))
    else
      SoleKeyPropertyCount(aggregate.properties);
      var keyProperty := keyProperties[0];
      match keyProperty.value
      case None => Failure(InvalidPartitionKeyValue(keyProperty.name, aggregate.typeName))
      case Some(text) => Success(text)
  }
}
