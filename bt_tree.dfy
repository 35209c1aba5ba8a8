// The blackboard, a string-keyed store of boxed values read back at a chosen
// type, and the BehaviorTree root that evaluates its root node once a frame.

module BTTree {
  import opened BTNode

  /** The value types stored in the blackboards of this program. */
  datatype ValueType = IntType | FloatType | BoolType | StringType

  /** A boxed value; NullValue is a null reference. */
  datatype Value = IntValue(i: int) | FloatValue(f: real) | BoolValue(b: bool)
                 | StringValue(s: string) | NullValue

  /** The unboxing `(T)value` of GetValue: the boxed type must be T itself,
      and null unboxes only to a reference type. Anything else throws. */
  predicate CastsTo(v: Value, t: ValueType)
  {
    match v
    case IntValue(_) => t == IntType
    case FloatValue(_) => t == FloatType
    case BoolValue(_) => t == BoolType
    case StringValue(_) => t == StringType
    case NullValue => t == StringType
  }

  /** `value is T` for a non-null value. */
  predicate IsOfType(v: Value, t: ValueType)
  {
    v != NullValue && CastsTo(v, t)
  }

  /** default(T). */
  function Default(t: ValueType): (r: Value)
    ensures CastsTo(r, t)
  {
    match t
    case IntType => IntValue(0)
    case FloatType => FloatValue(0.0)
    case BoolType => BoolValue(false)
    case StringType => NullValue
  }

  /** What GetValue<T> yields: a value, or the cast exception. */
  datatype Lookup = Found(value: Value) | InvalidCast

  /** GetValue<T>: the stored value when it unboxes to T, the default of T
      for an absent key. */
  function GetValue(data: map<string, Value>, t: ValueType, key: string): (r: Lookup)
    ensures r.Found? ==> CastsTo(r.value, t)
    ensures key !in data ==> r == Found(Default(t))
    ensures key in data && r.Found? ==> r.value == data[key]
  {
    if key in data then (if CastsTo(data[key], t) then Found(data[key]) else InvalidCast)
    else Found(Default(t))
  }

  /** HasKey: without the key, every read yields the default. */
  predicate HasKey(data: map<string, Value>, key: string)
    ensures !HasKey(data, key) ==> forall t :: GetValue(data, t, key) == Found(Default(t))
  {
    key in data
  }

  /** HasValue<T>: the key is stored and reads back at T as a non-null
      value. */
  predicate HasValue(data: map<string, Value>, t: ValueType, key: string)
    ensures HasValue(data, t, key) <==>
              HasKey(data, key) && GetValue(data, t, key).Found? && GetValue(data, t, key).value != NullValue
  {
    key in data && IsOfType(data[key], t)
  }

  function SetValue(data: map<string, Value>, key: string, value: Value): (r: map<string, Value>)
    ensures r.Keys == data.Keys + {key} && r[key] == value
    ensures forall k :: k in data && k != key ==> r[k] == data[k]
  {
    data[key := value]
  }

  /** Reading a key back at the type it was stored with gives the stored
      value; every other key reads as before. */
  lemma GetAfterSet(data: map<string, Value>, key: string, value: Value, t: ValueType)
    requires CastsTo(value, t)
    ensures GetValue(SetValue(data, key, value), t, key) == Found(value)
    ensures forall k, u :: k != key ==> GetValue(SetValue(data, key, value), u, k) == GetValue(data, u, k)
  {
  }

  /** An absent key reads as the type's default, and is neither a key nor a
      value. */
  lemma AbsentReadsDefault(data: map<string, Value>, key: string, t: ValueType)
    requires !HasKey(data, key)
    ensures GetValue(data, t, key) == Found(Default(t)) && !HasValue(data, t, key)
  {
  }

  /** HasValue implies HasKey, and then GetValue at that type succeeds with
      a non-null value. */
  lemma HasValueReads(data: map<string, Value>, t: ValueType, key: string)
    requires HasValue(data, t, key)
    ensures HasKey(data, key)
    ensures GetValue(data, t, key).Found? && GetValue(data, t, key).value != NullValue
  {
  }

  /** A stored key fails to read exactly when it is read at another type, or
      it holds null and is read at a value type. */
  lemma GetFailsIff(data: map<string, Value>, t: ValueType, key: string)
    ensures GetValue(data, t, key) == InvalidCast <==> HasKey(data, key) && !CastsTo(data[key], t)
  {
  }

  class Blackboard {
    var data: map<string, Value>

    constructor ()
      ensures data == map[]
    {
      data := map[];
    }

    /** SetValue<T>: overwrites the key and leaves the others as they are. */
    method Set(key: string, value: Value)
      modifies this
      ensures data == SetValue(old(data), key, value)
      ensures data.Keys == old(data).Keys + {key}
      ensures forall k :: k in old(data) && k != key ==> data[k] == old(data)[k]
    {
      data := SetValue(data, key, value);
    }
  }

  class BehaviorTree {
    var root: Node?

    constructor ()
      ensures root == null
    {
      root := null;
    }

    method SetRootNode(root: Node?)
      modifies this
      ensures this.root == root
    {
      this.root := root;
    }

    /** Update: the root, if any, is evaluated, `result` being its outcome;
        with no root the frame set is empty and nothing changes. */
    method Update(result: NodeState)
      modifies root
      ensures root != null ==> root.state == result
    {
      if root != null {
        var _ := root.Evaluate(result);
      }
    }
  }
}
