/**
 * JSON values as `JSON.parse` produces them, and JavaScript's property
 * reads on them: `v.name` and `v[i]` give a value or `undefined`, and
 * reading anything from `undefined` or `null` throws a TypeError.
 */
module Json {
  import opened Wrappers

  /** A number is `mantissa * 10^exponent` (0.7 is JNum(7, -1)). */
  datatype Json =
    | JNull
    | JBool(b: bool)
    | JNum(mantissa: int, exponent: int)
    | JStr(str: string)
    | JArr(items: seq<Json>)
    | JObj(members: seq<(string, Json)>)

  /** One step of a property path: `.name` or `[index]`. */
  datatype Key = Name(name: string) | At(index: nat)

  /** The outcome of evaluating a property path. */
  datatype Read = Undefined | Value(v: Json) | TypeError

  /** The member named `k`; when `JSON.parse` met a key twice, the last one wins. */
  function Member(members: seq<(string, Json)>, k: string): (r: Option<Json>)
    ensures r.Some? ==> (k, r.value) in members
    ensures r.None? ==> forall i :: 0 <= i < |members| ==> members[i].0 != k
  {
    if |members| == 0 then None
    else if members[|members| - 1].0 == k then Some(members[|members| - 1].1)
    else Member(members[..|members| - 1], k)
  }

  /** The member at index `i` is the one read when no later member has its key. */
  lemma {:induction false} MemberAt(members: seq<(string, Json)>, i: nat)
    requires i < |members|
    requires forall j :: i < j < |members| ==> members[j].0 != members[i].0
    ensures Member(members, members[i].0) == Some(members[i].1)
    decreases |members|
  {
    if i < |members| - 1 {
      MemberAt(members[..|members| - 1], i);
    }
  }

  /** Decimal digits of `n`: the property key `obj[n]` reads from an object. */
  function DecimalString(n: nat): (s: string)
    ensures |s| >= 1
    ensures forall i :: 0 <= i < |s| ==> '0' <= s[i] <= '9'
  {
    var d := ['0' + (n % 10) as char];
    if n < 10 then d else DecimalString(n / 10) + d
  }

  /** The optional value as a read: a missing member is `undefined`. */
  function FromOption(o: Option<Json>): Read {
    match o
    case Some(v) => Value(v)
    case None => Undefined
  }

  /**
   * `r.name` or `r[i]`. Only the own members of parsed JSON are modelled:
   * arrays and strings answer an index, objects a key, everything else
   * gives `undefined`.
   */
  function Get(r: Read, k: Key): (g: Read)
    ensures g.TypeError? <==> !r.Value? || r.v.JNull?
    ensures g.Value? ==> r.Value? && (r.v.JObj? || r.v.JArr? || r.v.JStr?)
  {
    match r
    case Undefined => TypeError
    case TypeError => TypeError
    case Value(v) =>
      match v
      case JNull => TypeError
      case JObj(m) =>
        (match k
         case Name(n) => FromOption(Member(m, n))
         case At(i) => FromOption(Member(m, DecimalString(i))))
      case JArr(a) =>
        (match k
         case At(i) => if i < |a| then Value(a[i]) else Undefined
         case Name(_) => Undefined)
      case JStr(s) =>
        (match k
         case At(i) => if i < |s| then Value(JStr([s[i]])) else Undefined
         case Name(_) => Undefined)
      case _ => Undefined
  }

  /**
   * `v.k1.k2…`, read left to right. Once a read has thrown or hit
   * `undefined`, any further step throws.
   */
  function Walk(r: Read, path: seq<Key>): (w: Read)
    ensures (r.Undefined? || r.TypeError?) && |path| > 0 ==> w == TypeError
    decreases |path|
  {
    if |path| == 0 then r else Walk(Get(r, path[0]), path[1..])
  }

  /** Reading a path in two halves is reading it whole. */
  lemma {:induction false} WalkAppend(r: Read, p: seq<Key>, q: seq<Key>)
    ensures Walk(r, p + q) == Walk(Walk(r, p), q)
    decreases |p|
  {
    if |p| > 0 {
      assert (p + q)[1..] == p[1..] + q;
      WalkAppend(Get(r, p[0]), p[1..], q);
    } else {
      assert p + q == q;
    }
  }

  /** The object `{ k: v }`. */
  function Single(k: string, v: Json): (o: Json)
    ensures Get(Value(o), Name(k)) == Value(v)
  {
    JObj([(k, v)])
  }

  /** The one-element array `[v]`. */
  function Singleton(v: Json): (a: Json)
    ensures Get(Value(a), At(0)) == Value(v)
  {
    JArr([v])
  }
}
