/** Named binary tags, reduced to what the core reads and writes. A compound tag is
    an association list in insertion order; the NBT library itself (its parsing,
    compression and byte layout) is not part of this model. */
module Nbt {

  import opened Common

  datatype Tag =
    | TString(s: string)
    | TInt(i: int)
    | TByte(b: int)
    | TList(items: seq<Tag>)
    | TCompound(entries: seq<(string, Tag)>)

  type Compound = seq<(string, Tag)>

  /** The value stored under `key`, if any. */
  function Get(c: Compound, key: string): (r: Option<Tag>)
    ensures r.Some? <==> exists i :: 0 <= i < |c| && c[i].0 == key
  {
    if c == [] then None
    else if c[0].0 == key then Some(c[0].1)
    else Get(c[1..], key)
  }

  /** `get_str`: fails when the key is missing or holds something other than a string. */
  function GetStr(c: Compound, key: string): Option<string> {
    match Get(c, key)
    case Some(TString(s)) => Some(s)
    case _ => None
  }

  /** `get_compound_tag`. */
  function GetCompound(c: Compound, key: string): Option<Compound> {
    match Get(c, key)
    case Some(TCompound(e)) => Some(e)
    case _ => None
  }

  /** `get_i32`. */
  function GetInt(c: Compound, key: string): Option<int> {
    match Get(c, key)
    case Some(TInt(i)) => Some(i)
    case _ => None
  }

  /** `get` of a list tag. */
  function GetList(c: Compound, key: string): Option<seq<Tag>> {
    match Get(c, key)
    case Some(TList(items)) => Some(items)
    case _ => None
  }

  predicate HasKey(c: Compound, key: string) {
    exists i :: 0 <= i < |c| && c[i].0 == key
  }

  /** `insert`: replaces the value of an existing key in place, otherwise appends. */
  function Insert(c: Compound, key: string, value: Tag): (r: Compound)
    ensures Get(r, key) == Some(value)
    ensures forall k :: k != key ==> Get(r, k) == Get(c, k)
    ensures HasKey(c, key) ==> |r| == |c|
    ensures !HasKey(c, key) ==> r == c + [(key, value)]
  {
    if c == [] then [(key, value)]
    else if c[0].0 == key then [(key, value)] + c[1..]
    else [c[0]] + Insert(c[1..], key, value)
  }

  /** The keys of a compound, in order. */
  function Keys(c: Compound): (ks: seq<string>)
    ensures |ks| == |c|
    ensures forall i :: 0 <= i < |c| ==> ks[i] == c[i].0
  {
    if c == [] then [] else [c[0].0] + Keys(c[1..])
  }

  predicate DistinctKeys(c: Compound) {
    forall i, j :: 0 <= i < j < |c| ==> c[i].0 != c[j].0
  }

  /** Lookup in a one- or two-entry compound, spelled out. */
  lemma GetPair(k1: string, v1: Tag, k2: string, v2: Tag, key: string)
    ensures Get([(k1, v1)], key) == if k1 == key then Some(v1) else None
    ensures Get([(k1, v1), (k2, v2)], key) == if k1 == key then Some(v1) else if k2 == key then Some(v2) else None
  {
    assert [(k1, v1), (k2, v2)][1..] == [(k2, v2)];
    assert [(k2, v2)][1..] == [];
    assert [(k1, v1)][1..] == [];
  }

  /** Adds the integer tags `x`, `y` and `z`. */
  function WithCoords(nbt: Compound, x: int, y: int, z: int): (r: Compound)
    ensures GetInt(r, "x") == Some(x) && GetInt(r, "y") == Some(y) && GetInt(r, "z") == Some(z)
    ensures forall k :: k !in {"x", "y", "z"} ==> Get(r, k) == Get(nbt, k)
  {
    Insert(Insert(Insert(nbt, "x", TInt(x)), "y", TInt(y)), "z", TInt(z))
  }

  /** Inserts every property as a string tag, in order (later duplicates overwrite). */
  function PropsCompound(props: seq<(string, string)>): Compound
  {
    if props == [] then []
    else Insert(PropsCompound(props[..|props| - 1]), props[|props| - 1].0, TString(props[|props| - 1].1))
  }

  /** The properties of an unknown state, each of which must be a string tag. */
  function StringProps(props: Compound): (r: Result<seq<(string, string)>>)
    ensures r.Ok? ==> |r.value| == |props|
    ensures r.Ok? ==> forall i :: 0 <= i < |props| ==> props[i] == (r.value[i].0, TString(r.value[i].1))
    ensures r.Panic? <==> exists i :: 0 <= i < |props| && !props[i].1.TString?
  {
    if props == [] then Ok([])
    else
      match props[0].1
      case TString(v) =>
        (match StringProps(props[1..])
         case Ok(rest) => Ok([(props[0].0, v)] + rest)
         case Panic(reason) => Panic(reason))
      case _ => Panic("Non-string blockstate value")
  }

  /** With distinct property names, inserting the properties one by one gives them back
      as string tags in their original order. */
  lemma {:induction false} PropsCompoundDistinct(props: seq<(string, string)>)
    requires forall i, j :: 0 <= i < j < |props| ==> props[i].0 != props[j].0
    ensures |PropsCompound(props)| == |props|
    ensures forall i :: 0 <= i < |props| ==> PropsCompound(props)[i] == (props[i].0, TString(props[i].1))
  {
    if props != [] {
      var init := props[..|props| - 1];
      PropsCompoundDistinct(init);
      var c := PropsCompound(init);
      var last := props[|props| - 1];
      forall i | 0 <= i < |c|
        ensures c[i].0 != last.0
      {
        assert c[i].0 == props[i].0;
      }
    }
  }

  /** A single property becomes a single string tag. */
  lemma PropsCompoundSingle(k: string, v: string)
    ensures PropsCompound([(k, v)]) == [(k, TString(v))]
  {
    assert [(k, v)][..0] == [];
    assert [] + [(k, TString(v))] == [(k, TString(v))];
  }
}
