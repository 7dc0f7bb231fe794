/**
 * The cfua document: an ordered list of (key, value) pairs that only ever
 * grows at the end, with type-directed first-match lookups.
 */
module CfuaData {
  import opened Wrappers

  /** An IEEE 754 double (Rust's `f64`); neither its bits nor its text are modelled. */
  type F(==)

  /** Rust's `i64`. */
  type Int64 = x: int | -0x8000_0000_0000_0000 <= x < 0x8000_0000_0000_0000

  /** A cfua value. A section carries no payload: its name is the key of its pair. */
  datatype CfuaType =
    | Integer(intValue: Int64)
    | Float(floatValue: F)
    | String(stringValue: string)
    | Bool(boolValue: bool)
    | Array(elements: seq<CfuaType>)
    | Section

  type Pair = (string, CfuaType)

  /** The values an array element may hold. */
  predicate IsScalar(v: CfuaType)
  {
    v.Integer? || v.Float? || v.String? || v.Bool?
  }

  predicate HasKey(pairs: seq<Pair>, key: string)
  {
    exists k :: 0 <= k < |pairs| && pairs[k].0 == key
  }

  /** `i` is the position of the first pair whose key is `key`. */
  ghost predicate IsFirstMatch(pairs: seq<Pair>, key: string, i: int)
  {
    0 <= i < |pairs| && pairs[i].0 == key && forall j :: 0 <= j < i ==> pairs[j].0 != key
  }

  /** The position `iter().find` stops at when it looks for `key`. */
  function Find(pairs: seq<Pair>, key: string): (r: Option<nat>)
    ensures r.Some? ==> IsFirstMatch(pairs, key, r.value)
    ensures r.None? <==> !HasKey(pairs, key)
  {
    if |pairs| == 0 then None
    else if pairs[0].0 == key then Some(0)
    else match Find(pairs[1..], key)
      case None => None
      case Some(i) => Some(i + 1)
  }

  /** Appending a pair never changes what an earlier key finds. */
  lemma FindAppend(pairs: seq<Pair>, p: Pair, key: string)
    ensures Find(pairs + [p], key)
         == if HasKey(pairs, key) then Find(pairs, key)
            else if p.0 == key then Some(|pairs|)
            else None
  {
    var r, q := Find(pairs + [p], key), Find(pairs, key);
    if q.Some? {
      assert (pairs + [p])[q.value] == pairs[q.value];
      assert IsFirstMatch(pairs + [p], key, q.value);
    } else if p.0 == key {
      assert IsFirstMatch(pairs + [p], key, |pairs|);
    } else {
      assert !HasKey(pairs + [p], key) by {
        forall k | 0 <= k < |pairs + [p]| ensures (pairs + [p])[k].0 != key {
          if k < |pairs| { assert (pairs + [p])[k] == pairs[k]; }
        }
      }
    }
  }

  /** The main library type: the stored pairs, in the order they were written. */
  class Cfua {
    var data: seq<Pair>

    /** An empty document. */
    constructor Create()
      ensures data == []
    {
      data := [];
    }

    method WriteInteger(key: string, value: Int64)
      modifies this
      ensures data == old(data) + [(key, Integer(value))]
      ensures !HasKey(old(data), key) ==> ReadInteger(key) == Some(value)
    {
      FindAppend(data, (key, Integer(value)), key);
      data := data + [(key, Integer(value))];
    }

    method WriteFloat(key: string, value: F)
      modifies this
      ensures data == old(data) + [(key, Float(value))]
      ensures !HasKey(old(data), key) ==> ReadFloat(key) == Some(value)
    {
      FindAppend(data, (key, Float(value)), key);
      data := data + [(key, Float(value))];
    }

    method WriteString(key: string, value: string)
      modifies this
      ensures data == old(data) + [(key, String(value))]
      ensures !HasKey(old(data), key) ==> ReadString(key) == Some(value)
    {
      FindAppend(data, (key, String(value)), key);
      data := data + [(key, String(value))];
    }

    method WriteBool(key: string, value: bool)
      modifies this
      ensures data == old(data) + [(key, Bool(value))]
      ensures !HasKey(old(data), key) ==> ReadBool(key) == Some(value)
    {
      FindAppend(data, (key, Bool(value)), key);
      data := data + [(key, Bool(value))];
    }

    /** Appends the section marker `@key`. */
    method WriteSection(key: string)
      modifies this
      ensures data == old(data) + [(key, Section)]
    {
      data := data + [(key, Section)];
    }

    /**
     * Appends `value`, which is what `finish()` returned for the array handed
     * in; every `finish` in the crate returns an `Array` of its elements.
     */
    method WriteArray(key: string, value: CfuaType)
      requires value.Array?
      modifies this
      ensures data == old(data) + [(key, value)]
      ensures !HasKey(old(data), key) ==> ReadArray(key) == Some(value.elements)
    {
      FindAppend(data, (key, value), key);
      data := data + [(key, value)];
    }

    /**
     * The integer under the first pair keyed `key`; `None` when there is no
     * such pair or when that first pair holds another kind of value.
     */
    function ReadInteger(key: string): (r: Option<Int64>)
      reads this
      ensures !HasKey(data, key) ==> r == None
      ensures forall i :: IsFirstMatch(data, key, i) ==>
                r == if data[i].1.Integer? then Some(data[i].1.intValue) else None
    {
      match Find(data, key)
      case None => None
      case Some(i) => if data[i].1.Integer? then Some(data[i].1.intValue) else None
    }

    function ReadFloat(key: string): (r: Option<F>)
      reads this
      ensures !HasKey(data, key) ==> r == None
      ensures forall i :: IsFirstMatch(data, key, i) ==>
                r == if data[i].1.Float? then Some(data[i].1.floatValue) else None
    {
      match Find(data, key)
      case None => None
      case Some(i) => if data[i].1.Float? then Some(data[i].1.floatValue) else None
    }

    function ReadString(key: string): (r: Option<string>)
      reads this
      ensures !HasKey(data, key) ==> r == None
      ensures forall i :: IsFirstMatch(data, key, i) ==>
                r == if data[i].1.String? then Some(data[i].1.stringValue) else None
    {
      match Find(data, key)
      case None => None
      case Some(i) => if data[i].1.String? then Some(data[i].1.stringValue) else None
    }

    function ReadBool(key: string): (r: Option<bool>)
      reads this
      ensures !HasKey(data, key) ==> r == None
      ensures forall i :: IsFirstMatch(data, key, i) ==>
                r == if data[i].1.Bool? then Some(data[i].1.boolValue) else None
    {
      match Find(data, key)
      case None => None
      case Some(i) => if data[i].1.Bool? then Some(data[i].1.boolValue) else None
    }

    function ReadArray(key: string): (r: Option<seq<CfuaType>>)
      reads this
      ensures !HasKey(data, key) ==> r == None
      ensures forall i :: IsFirstMatch(data, key, i) ==>
                r == if data[i].1.Array? then Some(data[i].1.elements) else None
    {
      match Find(data, key)
      case None => None
      case Some(i) => if data[i].1.Array? then Some(data[i].1.elements) else None
    }

    /** A copy of all pairs, in the order they were written, duplicate keys included. */
    function GetAll(): (r: seq<Pair>)
      reads this
      ensures r == data
    {
      data
    }
  }

  /**
   * The five typed lookups agree on the pair they look at: at most one of
   * them finds a value, and none does when the first match is a section.
   */
  lemma AtMostOneReadSucceeds(d: Cfua, key: string)
    ensures (if d.ReadInteger(key).Some? then 1 else 0) + (if d.ReadFloat(key).Some? then 1 else 0)
          + (if d.ReadString(key).Some? then 1 else 0) + (if d.ReadBool(key).Some? then 1 else 0)
          + (if d.ReadArray(key).Some? then 1 else 0) <= 1
    ensures (exists i :: IsFirstMatch(d.data, key, i) && d.data[i].1.Section?) ==>
              d.ReadInteger(key).None? && d.ReadFloat(key).None? && d.ReadString(key).None?
              && d.ReadBool(key).None? && d.ReadArray(key).None?
  {
  }
}
