/**
 * The JavaScript values that the decorators pass around, reduced to what
 * they inspect: truthiness, `typeof v === 'function'`, `Array.isArray`, and
 * the own enumerable string-keyed properties that `Object.assign` copies.
 */
module JsValues {

  datatype Option<T> = None | Some(value: T)

  /**
   * A function value. The decorators only ever compare a function with a few
   * well-known constructors, ask whether it is a subclass of Mongoose's
   * `SchemaType`, or use it as the owner of a metadata record.
   */
  datatype Func =
    | BooleanCtor                      // Boolean
    | DateCtor                         // Date
    | NumberCtor                       // Number
    | StringCtor                       // String
    | ArrayCtor                        // Array
    | FunctionCtor                     // Function, the constructor of every class object
    | ObjectIdCtor                     // Mongoose.Types.ObjectId, the BSON id class
    | SchemaTypeCtor(name: string)     // a subclass of Mongoose.SchemaType, e.g. Schema.Types.Mixed
    | OtherFunction(id: nat)           // any other function: a user class, Object, a method, a getter

  datatype Value =
    | Undefined
    | Null
    | Bool(b: bool)
    | Num(n: int)
    | Str(s: string)
    | Function(f: Func)
    | Arr(elems: seq<Value>)
    | Obj(props: map<string, Value>)
    | Schema(of: Func)                 // the Mongoose Schema object that buildSchema makes for a class

  /** A property descriptor as the decorators read it: `value`, `get` (getter) and `set` (setter). */
  datatype Descriptor = Descriptor(value: Value, getter: Value, setter: Value)

  /** JavaScript truthiness (`if (v)`), for the values of this model. */
  predicate Truthy(v: Value)
  {
    match v
    case Undefined => false
    case Null => false
    case Bool(b) => b
    case Num(n) => n != 0
    case Str(s) => s != ""
    case _ => true
  }

  /** The character of a decimal digit. */
  function Digit(d: nat): (c: char)
    requires d < 10
    ensures '0' <= c <= '9'
  {
    (('0' as int) + d) as char
  }

  /** The decimal property key of an array or string index (`String(n)`). */
  function IndexKey(n: nat): (s: string)
    ensures |s| >= 1
    ensures forall i :: 0 <= i < |s| ==> '0' <= s[i] <= '9'
    ensures n >= 10 ==> |s| >= 2
  {
    if n < 10 then [Digit(n)] else IndexKey(n / 10) + [Digit(n % 10)]
  }

  /** The value of a decimal digit character; 0 for any other character. */
  function DigitValue(c: char): (d: nat)
    ensures d < 10
  {
    if '0' <= c <= '9' then (c as int) - ('0' as int) else 0
  }

  /** The number a string of decimal digits denotes, read left to right. */
  function IndexOf(k: string): nat
  {
    if k == [] then 0 else IndexOf(k[..|k| - 1]) * 10 + DigitValue(k[|k| - 1])
  }

  /** Reading an index key back gives the index. */
  lemma {:induction false} IndexOfIndexKey(n: nat)
    ensures IndexOf(IndexKey(n)) == n
  {
    var s := IndexKey(n);
    if n < 10 {
      assert s[..|s| - 1] == [];
    } else {
      assert s[..|s| - 1] == IndexKey(n / 10);
      IndexOfIndexKey(n / 10);
      assert DigitValue(s[|s| - 1]) == n % 10;
    }
  }

  /** Distinct indices have distinct property keys. */
  lemma IndexKeyInjective(a: nat, b: nat)
    requires IndexKey(a) == IndexKey(b)
    ensures a == b
  {
    IndexOfIndexKey(a);
    IndexOfIndexKey(b);
  }

  /** The index-keyed own properties of an array with elements `s`. */
  function IndexEntries(s: seq<Value>): (r: map<string, Value>)
    ensures forall i: nat :: i < |s| ==> IndexKey(i) in r && r[IndexKey(i)] == s[i]
    ensures forall k :: k in r ==> IndexOf(k) < |s| && IndexKey(IndexOf(k)) == k
  {
    if s == [] then map[]
    else
      var last := |s| - 1;
      var prev := IndexEntries(s[..last]);
      var r := prev[IndexKey(last) := s[last]];
      IndexOfIndexKey(last);
      assert forall i: nat :: i < |s| ==> IndexKey(i) in r && r[IndexKey(i)] == s[i] by {
        forall i: nat | i < |s| ensures IndexKey(i) in r && r[IndexKey(i)] == s[i] {
          if i < last {
            IndexOfIndexKey(i);
            assert IndexKey(i) != IndexKey(last);
            assert prev[IndexKey(i)] == s[..last][i];
          }
        }
      }
      r
  }

  /** A one-element array has the single own property "0". */
  lemma SingletonArrayProps(v: Value)
    ensures OwnProps(Arr([v])) == map["0" := v]
  {
    assert IndexKey(0) == "0";
  }

  /** `Object.assign` with a source without properties changes nothing. */
  lemma AssignNothing(m: map<string, Value>)
    ensures m + map[] == m
  {
  }

  /** `Object.assign` with a one-property source sets that property. */
  lemma AssignOne(m: map<string, Value>, k: string, v: Value)
    ensures m + map[k := v] == m[k := v]
  {
  }

  /** Setting the one property of a one-property object replaces it. */
  lemma OverwriteOne(m: map<string, Value>, k: string, v: Value)
    requires m.Keys == {k}
    ensures m[k := v] == map[k := v]
  {
  }

  /** Storing a property twice keeps only the second value. */
  lemma StoreTwice(m: map<string, Value>, k: string, a: Value, b: Value)
    ensures m[k := a][k := b] == m[k := b]
  {
  }

  /** The one-character strings of `s`, one per index, as string indexing yields them. */
  function Chars(s: string): (r: seq<Value>)
    ensures |r| == |s|
    ensures forall i :: 0 <= i < |s| ==> r[i] == Str([s[i]])
  {
    seq(|s|, i requires 0 <= i < |s| => Str([s[i]]))
  }

  /**
   * The own enumerable string-keyed properties of `v`: what `Object.assign`
   * copies from a source. Objects give their properties, arrays and strings
   * their indices, everything else (null, undefined, booleans, numbers,
   * functions, Schema objects) nothing.
   */
  function OwnProps(v: Value): (r: map<string, Value>)
    ensures v.Obj? ==> r == v.props
    ensures !v.Obj? && !v.Arr? && !v.Str? ==> r == map[]
    ensures v.Arr? ==> forall i: nat :: i < |v.elems| ==> IndexKey(i) in r && r[IndexKey(i)] == v.elems[i]
    ensures v.Arr? ==> forall k :: k in r ==> IndexOf(k) < |v.elems| && IndexKey(IndexOf(k)) == k
  {
    match v
    case Obj(m) => m
    case Arr(s) => IndexEntries(s)
    case Str(s) => IndexEntries(Chars(s))
    case _ => map[]
  }
}
