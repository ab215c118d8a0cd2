/** JavaScript values as the scripts handle them: API responses, object literals and
    object spreads. An object is its own properties in insertion order, which is the order
    `Object.keys`, lodash `values` and `Array.prototype.join` see. */
module Json {
  import opened Seqs
  import Text

  datatype Value =
    | Undefined
    | Null
    | Bool(b: bool)
    | Num(n: int)
    | Str(s: string)
    | Obj(props: seq<Prop>)

  datatype Prop = Prop(name: string, value: Value)

  type Object = seq<Prop>

  /** `Object.keys(o)`. */
  function Names(o: Object): seq<string> {
    if |o| == 0 then [] else [o[0].name] + Names(o[1..])
  }

  /** Objects built by JSON.parse or by a literal never hold a name twice. */
  ghost predicate WellFormed(o: Object) {
    Distinct(Names(o))
  }

  /** `o[k]`: the value of the property named k, or undefined. */
  function Get(o: Object, k: string): (v: Value)
    ensures k !in Names(o) ==> v == Undefined
  {
    if |o| == 0 then Undefined else if o[0].name == k then o[0].value else Get(o[1..], k)
  }

  /** `o[k] = v` on a copy: an existing property keeps its place, a new one goes last. */
  function Put(o: Object, k: string, v: Value): (r: Object)
    ensures Get(r, k) == v
    ensures forall k' :: k' != k ==> Get(r, k') == Get(o, k')
    ensures Names(r) == if k in Names(o) then Names(o) else Names(o) + [k]
  {
    if |o| == 0 then [Prop(k, v)]
    else if o[0].name == k then [Prop(k, v)] + o[1..]
    else [o[0]] + Put(o[1..], k, v)
  }

  /** `{ ...a, ...b }` for a well-formed `a`: the properties of b written over a copy of a. */
  function Assign(a: Object, b: Object): (r: Object)
    ensures Names(a) <= Names(r)
    decreases |b|
  {
    if |b| == 0 then a else Assign(Put(a, b[0].name, b[0].value), b[1..])
  }

  /** The names of b that a lacks, in b's order. */
  function NewNames(a: seq<string>, b: seq<string>): seq<string>
    decreases |b|
  {
    if |b| == 0 then [] else (if b[0] in a then [] else [b[0]]) + NewNames(a + (if b[0] in a then [] else [b[0]]), b[1..])
  }

  lemma {:induction false} GetIn(o: Object, i: nat)
    requires WellFormed(o) && i < |o|
    ensures Get(o, o[i].name) == o[i].value
  {
    if i > 0 {
      assert Names(o)[0] == o[0].name && Names(o)[i] == o[i].name by { NamesAt(o, i); NamesAt(o, 0); }
      assert Names(o[1..]) == Names(o)[1..];
      GetIn(o[1..], i - 1);
    }
  }

  lemma {:induction false} NamesAt(o: Object, i: nat)
    requires i < |o|
    ensures |Names(o)| == |o| && Names(o)[i] == o[i].name
  {
    if i > 0 { NamesAt(o[1..], i - 1); } else { NamesLength(o[1..]); }
  }

  lemma {:induction false} NamesLength(o: Object)
    ensures |Names(o)| == |o|
  {
    if |o| > 0 { NamesLength(o[1..]); }
  }

  /** After a spread, a name of b reads b's value and every other name reads a's. */
  lemma {:induction false} AssignGet(a: Object, b: Object, k: string)
    requires WellFormed(b)
    ensures Get(Assign(a, b), k) == if k in Names(b) then Get(b, k) else Get(a, k)
    decreases |b|
  {
    if |b| > 0 {
      var a' := Put(a, b[0].name, b[0].value);
      DistinctTail(Names(b));
      AssignGet(a', b[1..], k);
    }
  }

  lemma DistinctTail(s: seq<string>)
    requires Distinct(s) && |s| > 0
    ensures Distinct(s[1..]) && s[0] !in s[1..]
  {
  }

  /** After a spread, a's names keep their places and b's new names follow in b's order. */
  lemma {:induction false} AssignNames(a: Object, b: Object)
    ensures Names(Assign(a, b)) == Names(a) + NewNames(Names(a), Names(b))
    decreases |b|
  {
    if |b| > 0 {
      var x := b[0].name;
      var a' := Put(a, x, b[0].value);
      var added := if x in Names(a) then [] else [x];
      var nb := Names(b);
      assert Names(a') == Names(a) + added;
      assert nb[0] == x && nb[1..] == Names(b[1..]);
      AssignNames(a', b[1..]);
      assert Assign(a, b) == Assign(a', b[1..]);
      assert NewNames(Names(a), nb) == added + NewNames(Names(a) + added, nb[1..]);
    }
  }

  lemma {:induction false} NewNamesFresh(a: seq<string>, b: seq<string>)
    requires Distinct(a)
    ensures Distinct(a + NewNames(a, b))
    decreases |b|
  {
    if |b| > 0 {
      var a' := a + (if b[0] in a then [] else [b[0]]);
      assert Distinct(a') by {
        if b[0] !in a {
          forall i, j | 0 <= i < j < |a'| ensures a'[i] != a'[j] {
            if j == |a| { assert a'[j] == b[0] && a'[i] == a[i]; }
          }
        }
      }
      NewNamesFresh(a', b[1..]);
      assert a + NewNames(a, b) == a' + NewNames(a', b[1..]);
    }
  }

  /** A spread of well-formed objects is well-formed. */
  lemma AssignWellFormed(a: Object, b: Object)
    requires WellFormed(a)
    ensures WellFormed(Assign(a, b))
  {
    AssignNames(a, b);
    NewNamesFresh(Names(a), Names(b));
  }

  /** `String(v)` as `Array.prototype.join` applies it: null and undefined give "". Only a
      string can bring a separator of the scripts' CSV into the text. */
  function Render(v: Value): (r: string)
    ensures !v.Str? ==> ',' !in r && '\n' !in r
  {
    match v
    case Undefined => ""
    case Null => ""
    case Bool(b) => if b then "true" else "false"
    case Num(n) => Text.IntToDecimal(n)
    case Str(s) => s
    case Obj(_) => "[object Object]"
  }

  /** `${v}` in a template literal: as `join` renders, except that null and undefined are
      spelled out. The two renderings differ exactly on those two values. */
  function TemplateString(v: Value): (r: string)
    ensures r == Render(v) <==> !(v.Undefined? || v.Null?)
  {
    match v
    case Undefined => "undefined"
    case Null => "null"
    case _ => Render(v)
  }
}
