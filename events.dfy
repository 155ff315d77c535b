/** Beat events as the processors see them: a map from field name to value, updated in place. */
module Events {

  /** A field value: a string, an integer, or any other kind of value the processors only pass along. */
  datatype Value = Str(s: string) | Int(i: int) | Other

  /** common.MapStr with flat field names. */
  class MapStr {
    var data: map<string, Value>

    constructor (data: map<string, Value>)
      ensures this.data == data
    {
      this.data := data;
    }

    predicate HasKey(key: string)
      reads this
    {
      key in data
    }

    /** A new map with the same fields; later changes to either do not reach the other. */
    method Clone() returns (copy: MapStr)
      ensures fresh(copy) && copy.data == data
    {
      copy := new MapStr(data);
    }

    method Put(key: string, value: Value)
      modifies this
      ensures data == old(data)[key := value]
    {
      data := data[key := value];
    }

    method Delete(key: string)
      modifies this
      ensures data == old(data) - {key}
    {
      data := data - {key};
    }
  }
}
