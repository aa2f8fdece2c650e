/**
 * Runtime values. Immutable variants are datatype values; `Array` and
 * `HashMap` wrap objects of a class because the `pop` and `delete` builtins
 * change them in place. `Nil` stands for Go's nil interface value.
 */
module Objects {
  import opened Wrappers
  import opened MachineInt
  import opened Ast
  import opened Environments
  import Strconv
  import Utf8
  import Fnv

  const INTEGER_OBJ := "INTEGER"
  const BOOLEAN_OBJ := "BOOLEAN"
  const NULL_OBJ := "NULL"
  const RETURN_VALUE_OBJ := "RETURN_VALUE"
  const ERROR_OBJ := "ERROR"
  const FUNCTION_OBJ := "FUNCTION"
  const STRING_OBJ := "STRING"
  const BUILTIN_OBJ := "BUILTIN"
  const ARRAY_OBJ := "ARRAY"
  const HASHMAP_OBJ := "HASHMAP"
  const PAIR_OBJ := "PAIR"

  datatype Object =
    | Nil
    | Integer(intValue: int64)
    | String(stringValue: string)
    | Boolean(boolValue: bool)
    | Null
    | ReturnValue(returnValue: Object)
    | Error(message: string)
    | Function(parameters: seq<Identifier>, body: BlockStatement, env: Environment<Object>)
    | Builtin(builtinName: string)
    | Array(arrayObject: ArrayObject)
    | HashMap(hashMap: HashMapObject)
    | PairObject(pair: Pair)

  datatype Pair = Pair(key: Object, value: Object)

  /** Why a computation stopped without a value. */
  datatype Reason =
    | Panic            // a Go runtime panic: nil dereference, index out of range, division by zero
    | FuelExhausted    // the bound on nested user-function calls was reached
    | PointerIdentity  // `==`/`!=` on values whose Go result is pointer identity, which is not modelled

  datatype Outcome<T> = Normal(value: T) | Abort(reason: Reason)

  class ArrayObject {
    var elements: seq<Object>
    /** Exceeds the depth of every element, so arrays never contain themselves. */
    ghost const depth: nat

    constructor (elements: seq<Object>)
      ensures this.elements == elements
      ensures forall i | 0 <= i < |elements| :: Depth(elements[i]) < depth
    {
      this.elements := elements;
      depth := 1 + MaxDepth(elements);
    }
  }

  class HashMapObject {
    var entries: map<uint64, Pair>

    constructor (entries: map<uint64, Pair>)
      ensures this.entries == entries
    {
      this.entries := entries;
    }
  }

  /** The tag of a value; calling it on nil is a Go panic. */
  function Type(o: Object): (r: string)
    requires !o.Nil?
    ensures r == ERROR_OBJ <==> o.Error?
    ensures r == RETURN_VALUE_OBJ <==> o.ReturnValue?
    ensures r == INTEGER_OBJ <==> o.Integer?
    ensures r == STRING_OBJ <==> o.String?
  {
    match o
    case Integer(_) => INTEGER_OBJ
    case String(_) => STRING_OBJ
    case Boolean(_) => BOOLEAN_OBJ
    case Null => NULL_OBJ
    case ReturnValue(_) => RETURN_VALUE_OBJ
    case Error(_) => ERROR_OBJ
    case Function(_, _, _) => FUNCTION_OBJ
    case Builtin(_) => BUILTIN_OBJ
    case Array(_) => ARRAY_OBJ
    case HashMap(_) => HASHMAP_OBJ
    case PairObject(_) => PAIR_OBJ
  }

  predicate SameVariant(a: Object, b: Object) {
    || (a.Integer? && b.Integer?) || (a.String? && b.String?) || (a.Boolean? && b.Boolean?)
    || (a.Null? && b.Null?) || (a.ReturnValue? && b.ReturnValue?) || (a.Error? && b.Error?)
    || (a.Function? && b.Function?) || (a.Builtin? && b.Builtin?) || (a.Array? && b.Array?)
    || (a.HashMap? && b.HashMap?) || (a.PairObject? && b.PairObject?)
  }

  /** Every variant has its own tag: two values share a tag exactly when they are the same variant. */
  lemma TypeIdentifiesVariant(a: Object, b: Object)
    requires !a.Nil? && !b.Nil?
    ensures Type(a) == Type(b) <==> SameVariant(a, b)
  {
  }

  // ---------------------------------------------------------------------
  // Inspect

  ghost function Max(a: nat, b: nat): nat {
    if a < b then b else a
  }

  /** How deeply arrays nest inside a value. */
  ghost function Depth(o: Object): nat {
    match o
    case ReturnValue(v) => Depth(v)
    case Array(a) => a.depth
    case PairObject(p) => Max(Depth(p.key), Depth(p.value))
    case _ => 0
  }

  ghost function MaxDepth(s: seq<Object>): (m: nat)
    ensures forall i | 0 <= i < |s| :: Depth(s[i]) <= m
  {
    if s == [] then 0 else Max(Depth(s[0]), MaxDepth(s[1..]))
  }

  /**
   * The values `Inspect` is defined on here: not nil (a Go panic), not a
   * function or hash map (left out), and arrays below their depth bound.
   */
  ghost predicate Inspectable(o: Object)
    reads *
    decreases Depth(o), o
  {
    match o
    case Nil => false
    case Function(_, _, _) => false
    case HashMap(_) => false
    case ReturnValue(v) => Inspectable(v)
    case PairObject(p) => Inspectable(p.key) && Inspectable(p.value)
    case Array(a) =>
      forall i | 0 <= i < |a.elements| :: Depth(a.elements[i]) < a.depth && Inspectable(a.elements[i])
    case _ => true
  }

  function Inspect(o: Object): string
    requires Inspectable(o)
    reads *
    decreases Depth(o), 1, o
  {
    match o
    case Integer(v) => Strconv.FormatInt(v)
    case String(s) => s
    case Boolean(b) => if b then "true" else "false"
    case Null => "null"
    case ReturnValue(v) => Inspect(v)
    case Error(m) => "ERROR:" + m
    case Builtin(_) => "builtin function"
    case Array(a) => "[" + InspectAll(a.elements, a.depth) + "]"
    case PairObject(p) => Inspect(p.key) + ": " + Inspect(p.value)
  }

  /** The Inspect texts of `s` joined by ", ". */
  function InspectAll(s: seq<Object>, ghost bound: nat): string
    requires forall i | 0 <= i < |s| :: Depth(s[i]) < bound && Inspectable(s[i])
    reads *
    decreases bound, 0, s
  {
    if |s| == 0 then ""
    else if |s| == 1 then Inspect(s[0])
    else Inspect(s[0]) + ", " + InspectAll(s[1..], bound)
  }

  /** Joining is a left-to-right fold: one more element adds one separator and its text. */
  lemma {:induction false} InspectAllAppend(s: seq<Object>, x: Object, bound: nat)
    requires forall i | 0 <= i < |s| :: Depth(s[i]) < bound && Inspectable(s[i])
    requires Depth(x) < bound && Inspectable(x)
    ensures InspectAll(s + [x], bound) ==
      if s == [] then Inspect(x) else InspectAll(s, bound) + ", " + Inspect(x)
  {
    if |s| > 1 {
      assert (s + [x])[1..] == s[1..] + [x];
      InspectAllAppend(s[1..], x, bound);
    } else if |s| == 1 {
      assert (s + [x])[1..] == [x];
    }
  }

  /** Integer text reads back as the integer; a negative one is '-' and the magnitude. */
  lemma InspectInteger(n: int64)
    ensures n >= 0 ==> Strconv.ParseInt(Inspect(Integer(n))) == Some(n)
    ensures n < 0 ==> Inspect(Integer(n)) == "-" + Strconv.FormatInt(-(n as int))
  {
    if n >= 0 {
      Strconv.ParseFormattedInt(n);
    }
  }

  // ---------------------------------------------------------------------
  // HashCode

  /** Only integers, booleans and strings can be hash-map keys. */
  predicate Hashable(o: Object) {
    o.Integer? || o.Boolean? || o.String?
  }

  function HashCode(o: Object): uint64
    requires Hashable(o)
  {
    match o
    case Integer(v) => ToUnsigned(v)
    case Boolean(b) => if b then 1 else 0
    case String(s) => StringHashCode(s)
  }

  /** FNV-1 64 over the UTF-8 bytes of `s`. */
  function StringHashCode(s: string): uint64
  {
    Fnv.Sum64(Utf8.Encode(s)) as int
  }

  /** Integer codes are the two's-complement bit pattern, so distinct integers never collide. */
  lemma IntegerHashCode(a: int64, b: int64)
    ensures HashCode(Integer(a)) == HashCode(Integer(b)) <==> a == b
    ensures a >= 0 ==> HashCode(Integer(a)) == a
    ensures a < 0 ==> HashCode(Integer(a)) == a + TWO_TO_THE_64
  {
    ToUnsignedInjective(a, b);
  }

  /** Codes are not tagged by variant: `true` and 1, `false` and 0 share a code. */
  lemma BooleanHashCode()
    ensures HashCode(Boolean(true)) == HashCode(Integer(1)) == 1
    ensures HashCode(Boolean(false)) == HashCode(Integer(0)) == 0
  {
    IntegerHashCode(1, 0);
  }

  /** The string code streams: hashing a + b continues from the code of a over the bytes of b. */
  lemma StringHashCodeAppend(a: string, b: string)
    ensures HashCode(String(a + b)) == Fnv.Fold(HashCode(String(a)) as bv64, Utf8.Encode(b)) as int
  {
    Utf8.EncodeAppend(a, b);
    Fnv.FoldAppend(Fnv.OFFSET_BASIS_64, Utf8.Encode(a), Utf8.Encode(b));
  }

  lemma HelloCode()
    ensures StringHashCode("Hello") == 0xfa36_5282_a44c_0ba7
  {
    var hello: seq<Utf8.byte> := [72, 101, 108, 108, 111];
    assert Utf8.Encode("Hello") == hello;
    // literal byte conversions, stated once so the solver need not derive them
    assert (72 as bv64) == 0x48 && (101 as bv64) == 0x65 && (108 as bv64) == 0x6c && (111 as bv64) == 0x6f;
    assert Fnv.Step(Fnv.OFFSET_BASIS_64, 72) == 0xaf63_bd4c_8601_b797;
    assert Fnv.Step(0xaf63_bd4c_8601_b797, 101) == 0x0832_4007_b4ea_f5f0;
    assert Fnv.Step(0x0832_4007_b4ea_f5f0, 108) == 0xd858_bd18_6b3f_e6bc;
    assert Fnv.Step(0xd858_bd18_6b3f_e6bc, 108) == 0xdeb0_0c7e_3d95_1118;
    assert Fnv.Step(0xdeb0_0c7e_3d95_1118, 111) == 0xfa36_5282_a44c_0ba7;
  }

  lemma WorldCode()
    ensures StringHashCode("World") == 0xbdad_ce05_ab34_8bef
  {
    var world: seq<Utf8.byte> := [87, 111, 114, 108, 100];
    assert Utf8.Encode("World") == world;
    assert (87 as bv64) == 0x57 && (111 as bv64) == 0x6f && (114 as bv64) == 0x72;
    assert (108 as bv64) == 0x6c && (100 as bv64) == 0x64;
    assert Fnv.Step(Fnv.OFFSET_BASIS_64, 87) == 0xaf63_bd4c_8601_b788;
    assert Fnv.Step(0xaf63_bd4c_8601_b788, 111) == 0x0832_3107_b4ea_dc77;
    assert Fnv.Step(0x0832_3107_b4ea_dc77, 114) == 0xd825_c718_6b14_9e47;
    assert Fnv.Step(0xd825_c718_6b14_9e47, 108) == 0x5ccf_957d_f408_f2c9;
    assert Fnv.Step(0x5ccf_957d_f408_f2c9, 100) == 0xbdad_ce05_ab34_8bef;
  }

  // ---------------------------------------------------------------------
  // References into the heap

  /** The mutable objects a value refers to directly (not through other objects). */
  function Refs(o: Object): set<object> {
    match o
    case ReturnValue(v) => Refs(v)
    case Function(_, _, env) => {env}
    case Array(a) => {a}
    case HashMap(m) => {m}
    case PairObject(p) => Refs(p.key) + Refs(p.value)
    case _ => {}
  }

  /** A return value never directly wraps another one. */
  predicate Shallow(o: Object) {
    o.ReturnValue? ==> !o.returnValue.ReturnValue?
  }

  ghost predicate Storable(o: Object, heap: set<object>) {
    Refs(o) <= heap && Shallow(o)
  }

  /**
   * `heap` holds every environment, array and hash map reachable from its
   * members, and every stored value is Storable.
   */
  ghost predicate Closed(heap: set<object>)
    reads heap
  {
    && (forall e: Environment<Object> | e in heap ::
          e.Valid() && e.outers <= heap && forall k | k in e.store :: Storable(e.store[k], heap))
    && (forall a: ArrayObject | a in heap ::
          forall i | 0 <= i < |a.elements| :: Storable(a.elements[i], heap))
    && (forall m: HashMapObject | m in heap ::
          forall h | h in m.entries :: Storable(m.entries[h].key, heap) && Storable(m.entries[h].value, heap))
  }
}
