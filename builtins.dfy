/**
 * The builtin functions. `len` and `push` build new values; `pop` shrinks an
 * array and `delete` removes a hash-map entry, both in place; `keys` fills a
 * fresh array in whatever order the map is walked.
 */
module Builtins {
  import opened MachineInt
  import opened Wrappers
  import opened Objects
  import Strconv
  import Utf8

  predicate IsBuiltinName(name: string) {
    name == "len" || name == "push" || name == "pop" || name == "keys" || name == "delete" || name == "print"
  }

  /** The `builtins` table. */
  function Lookup(name: string): (r: Option<Object>)
    ensures r.Some? <==> IsBuiltinName(name)
    ensures r.Some? ==> r.value == Builtin(name)
  {
    if IsBuiltinName(name) then Some(Builtin(name)) else None
  }

  function ArgumentCountError(got: nat, want: nat): Object {
    Error("wrong number of arguments. got=" + Strconv.FormatInt(got) + ", want=" + Strconv.FormatInt(want))
  }

  /** The array or hash map that `pop` or `delete` may change: the one passed first. */
  function Target(args: seq<Object>): set<object> {
    if |args| == 0 then {}
    else if args[0].Array? then {args[0].arrayObject}
    else if args[0].HashMap? then {args[0].hashMap}
    else {}
  }

  /** The array `len` reads, if it is given one. */
  function LenTarget(args: seq<Object>): set<object> {
    if |args| == 1 && args[0].Array? then {args[0].arrayObject} else {}
  }

  /** Byte length of a string, element count of an array; the count is taken as int64. */
  function Len(args: seq<Object>): (r: Outcome<Object>)
    reads LenTarget(args)
    ensures |args| != 1 ==> r == Normal(ArgumentCountError(|args|, 1))
    ensures |args| == 1 && args[0].String? ==> r == Normal(Integer(Wrap(|Utf8.Encode(args[0].stringValue)|)))
    ensures |args| == 1 && args[0].Array? ==> r == Normal(Integer(Wrap(|args[0].arrayObject.elements|)))
    ensures |args| == 1 && args[0].Nil? ==> r == Abort(Panic)
    ensures |args| == 1 && !args[0].Nil? && !args[0].String? && !args[0].Array? ==>
      r == Normal(Error("argument to `len` not supported, got " + Type(args[0])))
  {
    if |args| != 1 then Normal(ArgumentCountError(|args|, 1))
    else match args[0]
      case String(s) => Normal(Integer(Wrap(|Utf8.Encode(s)|)))
      case Array(a) => Normal(Integer(Wrap(|a.elements|)))
      case Nil => Abort(Panic)
      case _ => Normal(Error("argument to `len` not supported, got " + Type(args[0])))
  }

  /** `len` counts bytes: an ASCII string's length is its character count, any other is longer. */
  lemma LenCountsBytes(s: string)
    requires |Utf8.Encode(s)| <= MAX_INT64
    ensures Len([String(s)]).value.intValue >= |s|
    ensures Len([String(s)]) == Normal(Integer(|s|)) <==> Utf8.IsAscii(s)
  {
    Utf8.EncodedLength(s);
  }

  /** The array a builtin returns, if it returns one. */
  function ResultArray(r: Outcome<Object>): set<object> {
    if r.Normal? && r.value.Array? then {r.value.arrayObject} else {}
  }

  /** What `push` answers before it looks at the array's elements: the arity, nil and type checks. */
  predicate PushOutcome(args: seq<Object>, r: Outcome<Object>) {
    && (|args| != 2 ==> r == Normal(ArgumentCountError(|args|, 2)))
    && (|args| == 2 && args[0].Nil? ==> r == Abort(Panic))
    && (|args| == 2 && !args[0].Nil? && !args[0].Array? ==>
          r == Normal(Error("argument to `push` must be ARRAY, got " + Type(args[0]))))
    && (|args| == 2 && args[0].Array? ==> r.Normal? && r.value.Array?)
  }

  /** `push` in full: on an array, a fresh array holding its elements and then the value. */
  twostate predicate Pushed(args: seq<Object>, new r: Outcome<Object>)
    reads ResultArray(r)
  {
    && PushOutcome(args, r)
    && (|args| == 2 && args[0].Array? ==>
          && fresh(r.value.arrayObject)
          && r.value.arrayObject.elements == old(args[0].arrayObject.elements) + [args[1]])
  }

  /** A new array: the old elements and then the value; the argument array is not touched. */
  method Push(args: seq<Object>) returns (r: Outcome<Object>)
    ensures Pushed(args, r)
  {
    if |args| != 2 {
      return Normal(ArgumentCountError(|args|, 2));
    }
    if args[0].Nil? {
      return Abort(Panic);
    }
    if !args[0].Array? {
      return Normal(Error("argument to `push` must be ARRAY, got " + Type(args[0])));
    }
    var elements := args[0].arrayObject.elements + [args[1]];
    var a := new ArrayObject(elements);
    r := Normal(Array(a));
  }

  /** What `pop` answers before it looks at the array's elements. */
  predicate PopOutcome(args: seq<Object>, r: Outcome<Object>) {
    && (|args| != 1 ==> r == Normal(ArgumentCountError(|args|, 1)))
    && (|args| == 1 && args[0].Nil? ==> r == Abort(Panic))
    && (|args| == 1 && !args[0].Nil? && !args[0].Array? ==>
          r == Normal(Error("argument to `pop` must be ARRAY, got " + Type(args[0]))))
    && (|args| == 1 && args[0].Array? ==> r.Normal?)
  }

  /** `pop` in full: the last element is removed in place and returned; an empty array gives NULL; errors change nothing. */
  twostate predicate Popped(args: seq<Object>, new r: Outcome<Object>)
    reads Target(args)
  {
    && PopOutcome(args, r)
    && (!(|args| == 1 && args[0].Array?) ==> unchanged(Target(args)))
    && (|args| == 1 && args[0].Array? ==>
          var a := args[0].arrayObject;
          var oldElements := old(a.elements);
          && (oldElements == [] ==> r == Normal(Null) && a.elements == [])
          && (oldElements != [] ==>
                r == Normal(oldElements[|oldElements| - 1]) && a.elements == oldElements[..|oldElements| - 1]))
  }

  /** Removes and returns the last element in place; an empty array gives NULL. */
  method Pop(args: seq<Object>) returns (r: Outcome<Object>)
    modifies Target(args)
    ensures Popped(args, r)
  {
    if |args| != 1 {
      return Normal(ArgumentCountError(|args|, 1));
    }
    if args[0].Nil? {
      return Abort(Panic);
    }
    if !args[0].Array? {
      return Normal(Error("argument to `pop` must be ARRAY, got " + Type(args[0])));
    }
    var a := args[0].arrayObject;
    var n := |a.elements|;
    if n == 0 {
      return Normal(Null);
    }
    var last := a.elements[n - 1];
    a.elements := a.elements[0..n - 1];
    r := Normal(last);
  }

  /** What `keys` answers before it looks at the map's entries. */
  predicate KeysOutcome(args: seq<Object>, r: Outcome<Object>) {
    && (|args| != 1 ==> r == Normal(ArgumentCountError(|args|, 1)))
    && (|args| == 1 && args[0].Nil? ==> r == Abort(Panic))
    && (|args| == 1 && !args[0].Nil? && !args[0].HashMap? ==>
          r == Normal(Error("argument to `keys` must be HASHMAP, got " + Type(args[0]))))
    && (|args| == 1 && args[0].HashMap? ==> r.Normal? && r.value.Array?)
  }

  /**
   * `keys` in full: on a hash map, a fresh array holding each stored key
   * once, in the walk order `order`, which lists every stored hash code
   * exactly once.
   */
  twostate predicate KeysListed(args: seq<Object>, new r: Outcome<Object>, order: seq<uint64>)
    reads ResultArray(r)
  {
    && KeysOutcome(args, r)
    && (|args| == 1 && args[0].HashMap? ==>
          && fresh(r.value.arrayObject)
          && var entries := old(args[0].hashMap.entries);
          && var keys := r.value.arrayObject.elements;
          && |keys| == |order| == |entries.Keys|
          && (forall h | h in entries :: h in order)
          && (forall i | 0 <= i < |order| :: order[i] in entries && keys[i] == entries[order[i]].key)
          && (forall i, j | 0 <= i < j < |order| :: order[i] != order[j]))
  }

  /** A fresh array holding each stored key once, in whatever order the map is walked. */
  method Keys(args: seq<Object>) returns (r: Outcome<Object>, ghost order: seq<uint64>)
    ensures KeysListed(args, r, order)
  {
    order := [];
    if |args| != 1 {
      return Normal(ArgumentCountError(|args|, 1)), order;
    }
    if args[0].Nil? {
      return Abort(Panic), order;
    }
    if !args[0].HashMap? {
      return Normal(Error("argument to `keys` must be HASHMAP, got " + Type(args[0]))), order;
    }
    var m := args[0].hashMap;
    var keys := new ArrayObject([]);
    var remaining := m.entries.Keys;
    while remaining != {}
      invariant remaining <= m.entries.Keys
      invariant |keys.elements| == |order| && |order| + |remaining| == |m.entries.Keys|
      invariant forall h | h in m.entries :: h in remaining || h in order
      invariant forall i | 0 <= i < |order| :: order[i] in m.entries && order[i] !in remaining
      invariant forall i | 0 <= i < |order| :: keys.elements[i] == m.entries[order[i]].key
      invariant forall i, j | 0 <= i < j < |order| :: order[i] != order[j]
      decreases |remaining|
    {
      var h :| h in remaining;
      keys.elements := keys.elements + [m.entries[h].key];
      order := order + [h];
      remaining := remaining - {h};
    }
    r := Normal(Array(keys));
  }

  /** What `delete` answers: it never depends on the map's entries. */
  predicate DeleteOutcome(args: seq<Object>, r: Outcome<Object>) {
    && (|args| != 2 ==> r == Normal(ArgumentCountError(|args|, 2)))
    && (|args| == 2 && args[0].Nil? ==> r == Abort(Panic))
    && (|args| == 2 && !args[0].Nil? && !args[0].HashMap? ==>
          r == Normal(Error("argument to `delete` must be HASHMAP, got " + Type(args[0]))))
    && (|args| == 2 && args[0].HashMap? && args[1].Nil? ==> r == Abort(Panic))
    && (|args| == 2 && args[0].HashMap? && !args[1].Nil? && !Hashable(args[1]) ==>
          r == Normal(Error("unusable as a hashkey: " + Type(args[1]))))
    && (|args| == 2 && args[0].HashMap? && Hashable(args[1]) ==> r == Normal(Null))
  }

  /** `delete` in full: the entry under the key's hash code is removed; otherwise nothing changes. */
  twostate predicate Deleted(args: seq<Object>, new r: Outcome<Object>)
    reads Target(args)
  {
    && DeleteOutcome(args, r)
    && (!(|args| == 2 && args[0].HashMap? && Hashable(args[1])) ==> unchanged(Target(args)))
    && (|args| == 2 && args[0].HashMap? && Hashable(args[1]) ==>
          args[0].hashMap.entries == old(args[0].hashMap.entries) - {HashCode(args[1])})
  }

  /** Removes the entry stored under the key's hash code, if any; returns NULL. */
  method Delete(args: seq<Object>) returns (r: Outcome<Object>)
    modifies Target(args)
    ensures Deleted(args, r)
  {
    if |args| != 2 {
      return Normal(ArgumentCountError(|args|, 2));
    }
    if args[0].Nil? {
      return Abort(Panic);
    }
    if !args[0].HashMap? {
      return Normal(Error("argument to `delete` must be HASHMAP, got " + Type(args[0])));
    }
    var m := args[0].hashMap;
    if !Hashable(args[1]) {
      if args[1].Nil? {
        return Abort(Panic);
      }
      return Normal(Error("unusable as a hashkey: " + Type(args[1])));
    }
    m.entries := m.entries - {HashCode(args[1])};
    r := Normal(Null);
  }

  /** Deleting twice is deleting once; deleting an absent key changes nothing. */
  lemma DeleteIdempotent(entries: map<uint64, Pair>, key: Object)
    requires Hashable(key)
    ensures (entries - {HashCode(key)}) - {HashCode(key)} == entries - {HashCode(key)}
    ensures HashCode(key) !in entries ==> entries - {HashCode(key)} == entries
  {
  }

  /** `print` yields NULL; what it writes is not modelled. */
  function Print(args: seq<Object>): (r: Outcome<Object>)
  {
    Normal(Null)
  }
}
