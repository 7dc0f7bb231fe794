/**
 * Fluent builders for typed arrays. Each builder holds the elements pushed
 * so far, all of one fixed variant, and `Finish` hands them over as an
 * `Array` value for `Cfua.WriteArray`.
 */
module CfuaArray {
  import opened CfuaData

  /** `finish` for a plain vector of values: the vector, unchanged, as an `Array`. */
  function FinishVec(elements: seq<CfuaType>): (r: CfuaType)
    ensures r.Array? && r.elements == elements
  {
    Array(elements)
  }

  /** An array of integers. */
  class IntegerArray {
    var elements: seq<CfuaType>

    ghost predicate Valid()
      reads this
    {
      forall k :: 0 <= k < |elements| ==> elements[k].Integer?
    }

    constructor New()
      ensures Valid() && elements == []
    {
      elements := [];
    }

    /** Appends `value` at the end and returns the builder itself, for chaining. */
    method Push(value: Int64) returns (r: IntegerArray)
      requires Valid()
      modifies this
      ensures Valid() && r == this
      ensures elements == old(elements) + [Integer(value)]
    {
      elements := elements + [Integer(value)];
      r := this;
    }

    function Finish(): (r: CfuaType)
      reads this
      ensures r.Array? && r.elements == elements
      ensures Valid() ==> forall k :: 0 <= k < |r.elements| ==> r.elements[k].Integer?
    {
      Array(elements)
    }
  }

  /** An array of floating-point numbers. */
  class FloatArray {
    var elements: seq<CfuaType>

    ghost predicate Valid()
      reads this
    {
      forall k :: 0 <= k < |elements| ==> elements[k].Float?
    }

    constructor New()
      ensures Valid() && elements == []
    {
      elements := [];
    }

    method Push(value: F) returns (r: FloatArray)
      requires Valid()
      modifies this
      ensures Valid() && r == this
      ensures elements == old(elements) + [Float(value)]
    {
      elements := elements + [Float(value)];
      r := this;
    }

    function Finish(): (r: CfuaType)
      reads this
      ensures r.Array? && r.elements == elements
      ensures Valid() ==> forall k :: 0 <= k < |r.elements| ==> r.elements[k].Float?
    {
      Array(elements)
    }
  }

  /**
   * An array of booleans. Its elements are `Bool` values, the variant
   * `CfuaType` actually declares.
   */
  class BooleanArray {
    var elements: seq<CfuaType>

    ghost predicate Valid()
      reads this
    {
      forall k :: 0 <= k < |elements| ==> elements[k].Bool?
    }

    constructor New()
      ensures Valid() && elements == []
    {
      elements := [];
    }

    method Push(value: bool) returns (r: BooleanArray)
      requires Valid()
      modifies this
      ensures Valid() && r == this
      ensures elements == old(elements) + [Bool(value)]
    {
      elements := elements + [Bool(value)];
      r := this;
    }

    function Finish(): (r: CfuaType)
      reads this
      ensures r.Array? && r.elements == elements
      ensures Valid() ==> forall k :: 0 <= k < |r.elements| ==> r.elements[k].Bool?
    {
      Array(elements)
    }
  }

  /** An array of strings. */
  class StringArray {
    var elements: seq<CfuaType>

    ghost predicate Valid()
      reads this
    {
      forall k :: 0 <= k < |elements| ==> elements[k].String?
    }

    constructor New()
      ensures Valid() && elements == []
    {
      elements := [];
    }

    method Push(value: string) returns (r: StringArray)
      requires Valid()
      modifies this
      ensures Valid() && r == this
      ensures elements == old(elements) + [String(value)]
    {
      elements := elements + [String(value)];
      r := this;
    }

    function Finish(): (r: CfuaType)
      reads this
      ensures r.Array? && r.elements == elements
      ensures Valid() ==> forall k :: 0 <= k < |r.elements| ==> r.elements[k].String?
    {
      Array(elements)
    }
  }
}
