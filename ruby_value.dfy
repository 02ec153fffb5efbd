/**
 * The Ruby values the client library handles: what JSON parsing yields
 * (nil, booleans, integers, strings, arrays, hashes) plus symbols, which the
 * library uses as hash keys.  A Ruby Hash keeps insertion order, so it is an
 * association list whose keys are kept distinct by `Put`.
 */
module RubyValue {

  datatype Option<T> = None | Some(value: T)

  /** The Ruby exceptions the modelled code can raise. */
  datatype Error =
    | RuntimeError(message: string)   // `raise "..."`
    | TypeError                       // e.g. `"a" + nil`, `[1]["k"]`
    | NoMethodError                   // e.g. `nil["k"]`

  datatype Result<T> = Ok(value: T) | Err(error: Error)

  datatype Value =
    | Nil
    | Bool(b: bool)
    | Int(i: int)
    | Str(s: string)
    | Sym(name: string)
    | Arr(elems: seq<Value>)
    | Hash(entries: seq<(Value, Value)>)

  type Entries = seq<(Value, Value)>

  /** Ruby truthiness: everything except nil and false. */
  predicate Truthy(v: Value) {
    !(v.Nil? || v == Bool(false))
  }

  // ---------------------------------------------------------------------------
  // Hashes as ordered association lists
  // ---------------------------------------------------------------------------

  function Keys(h: Entries): (ks: seq<Value>)
    ensures |ks| == |h|
    ensures forall i :: 0 <= i < |h| ==> ks[i] == h[i].0
  {
    if h == [] then [] else [h[0].0] + Keys(h[1..])
  }

  predicate UniqueKeys(h: Entries) {
    forall i, j :: 0 <= i < j < |h| ==> h[i].0 != h[j].0
  }

  /** `h[k]` as an optional value: the entry whose key is `k`, if any. */
  function Get(h: Entries, k: Value): (r: Option<Value>)
    ensures r.None? <==> k !in Keys(h)
  {
    if h == [] then None
    else if h[0].0 == k then Some(h[0].1)
    else Get(h[1..], k)
  }

  /** `h[k]` on a hash without default: nil when the key is absent. */
  function Fetch(h: Entries, k: Value): Value {
    match Get(h, k)
    case Some(v) => v
    case None => Nil
  }

  /**
   * `h[k] = v`: an existing key keeps its position and gets the new value,
   * a new key is appended at the end.
   */
  function Put(h: Entries, k: Value, v: Value): (r: Entries)
    ensures k in Keys(h) ==> Keys(r) == Keys(h)
    ensures k !in Keys(h) ==> r == h + [(k, v)]
  {
    if h == [] then [(k, v)]
    else if h[0].0 == k then [(k, v)] + h[1..]
    else [h[0]] + Put(h[1..], k, v)
  }

  /** Lookup in a concatenation tries the left part first. */
  lemma {:induction false} GetAppend(a: Entries, b: Entries, k: Value)
    ensures Get(a + b, k) == if k in Keys(a) then Get(a, k) else Get(b, k)
  {
    if a == [] {
      assert a + b == b;
    } else {
      assert (a + b)[1..] == a[1..] + b;
      GetAppend(a[1..], b, k);
    }
  }

  /** Assign every pair of `xs` to `acc`, left to right. */
  function PutAll(acc: Entries, xs: Entries): Entries
    decreases |xs|
  {
    if xs == [] then acc else PutAll(Put(acc, xs[0].0, xs[0].1), xs[1..])
  }

  /** The value of the last pair of `xs` whose key is `k`. */
  function LastValue(xs: Entries, k: Value): (r: Option<Value>)
    ensures r.None? <==> k !in Keys(xs)
  {
    if xs == [] then None
    else
      KeysSnoc(xs);
      if xs[|xs| - 1].0 == k then Some(xs[|xs| - 1].1)
      else LastValue(xs[..|xs| - 1], k)
  }

  /** The keys of a non-empty list are those of all pairs but the last, then the last key. */
  lemma KeysSnoc(xs: Entries)
    requires xs != []
    ensures Keys(xs) == Keys(xs[..|xs| - 1]) + [xs[|xs| - 1].0]
  {
    var ks, front := Keys(xs), Keys(xs[..|xs| - 1]) + [xs[|xs| - 1].0];
    assert |ks| == |front|;
    forall i | 0 <= i < |ks|
      ensures ks[i] == front[i]
    {
      if i < |xs| - 1 {
        assert front[i] == Keys(xs[..|xs| - 1])[i] == xs[..|xs| - 1][i].0;
      }
    }
  }

  lemma {:induction false} GetPut(h: Entries, k: Value, v: Value, k': Value)
    ensures Get(Put(h, k, v), k') == if k' == k then Some(v) else Get(h, k')
  {
    if h != [] && h[0].0 != k {
      GetPut(h[1..], k, v, k');
    }
  }

  lemma {:induction false} PutKeepsUnique(h: Entries, k: Value, v: Value)
    requires UniqueKeys(h)
    ensures UniqueKeys(Put(h, k, v))
  {
    var r := Put(h, k, v);
    if k in Keys(h) {
      assert Keys(r) == Keys(h);
      forall i, j | 0 <= i < j < |r| ensures r[i].0 != r[j].0 {
        assert Keys(r)[i] == Keys(h)[i] && Keys(r)[j] == Keys(h)[j];
      }
    } else {
      forall i, j | 0 <= i < j < |r| ensures r[i].0 != r[j].0 {
        if j == |h| {
          assert Keys(h)[i] == h[i].0;
        }
      }
    }
  }

  lemma {:induction false} PutAllSnoc(acc: Entries, xs: Entries, x: (Value, Value))
    ensures PutAll(acc, xs + [x]) == Put(PutAll(acc, xs), x.0, x.1)
    decreases |xs|
  {
    if xs == [] {
      assert [x][1..] == [];
    } else {
      assert (xs + [x])[1..] == xs[1..] + [x];
      PutAllSnoc(Put(acc, xs[0].0, xs[0].1), xs[1..], x);
    }
  }

  /** Assigning all pairs, then looking up, finds the LAST assignment of the key. */
  lemma {:induction false} GetPutAll(acc: Entries, xs: Entries, k: Value)
    ensures Get(PutAll(acc, xs), k) == if k in Keys(xs) then LastValue(xs, k) else Get(acc, k)
    decreases |xs|
  {
    if xs != [] {
      var init, x := xs[..|xs| - 1], xs[|xs| - 1];
      assert xs == init + [x];
      PutAllSnoc(acc, init, x);
      GetPut(PutAll(acc, init), x.0, x.1, k);
      GetPutAll(acc, init, k);
      KeysSnoc(xs);
    }
  }

  lemma {:induction false} PutAllKeepsUnique(acc: Entries, xs: Entries)
    requires UniqueKeys(acc)
    ensures UniqueKeys(PutAll(acc, xs))
    decreases |xs|
  {
    if xs != [] {
      PutKeepsUnique(acc, xs[0].0, xs[0].1);
      PutAllKeepsUnique(Put(acc, xs[0].0, xs[0].1), xs[1..]);
    }
  }

  /** Assigning distinct keys one after another rebuilds the same list. */
  lemma {:induction false} PutAllDistinct(acc: Entries, xs: Entries)
    requires UniqueKeys(acc + xs)
    ensures PutAll(acc, xs) == acc + xs
    decreases |xs|
  {
    if xs != [] {
      var k := xs[0].0;
      assert k !in Keys(acc) by {
        forall i | 0 <= i < |acc| ensures Keys(acc)[i] != k {
          assert (acc + xs)[i].0 != (acc + xs)[|acc|].0;
        }
      }
      assert acc + xs == (acc + [xs[0]]) + xs[1..];
      PutAllDistinct(acc + [xs[0]], xs[1..]);
    }
  }

  /** Every key of the result was a key of `acc` or of `xs`. */
  lemma {:induction false} PutAllKeys(acc: Entries, xs: Entries, k: Value)
    ensures k in Keys(PutAll(acc, xs)) <==> k in Keys(acc) || k in Keys(xs)
  {
    GetPutAll(acc, xs, k);
  }

  // ---------------------------------------------------------------------------
  // `v["key"]` with a String argument, as Ruby dispatches it
  // ---------------------------------------------------------------------------

  predicate OccursAt(needle: string, hay: string, i: int) {
    0 <= i <= |hay| - |needle| && hay[i..i + |needle|] == needle
  }

  predicate IsSubstring(needle: string, hay: string) {
    exists i | 0 <= i <= |hay| - |needle| :: OccursAt(needle, hay, i)
  }

  /**
   * `v[key]`: a hash looks the String key up (nil when absent); a String or
   * Symbol returns the key if it occurs as a substring; Integer and Array
   * reject a String index; nil, true and false have no `[]`.
   */
  function Index(v: Value, key: string): (r: Result<Value>)
    ensures v.Hash? ==> r == Ok(Fetch(v.entries, Str(key)))
    ensures v.Hash? && Str(key) !in Keys(v.entries) ==> r == Ok(Nil)
    ensures v.Hash? && Get(v.entries, Str(key)).Some? ==> r == Ok(Get(v.entries, Str(key)).value)
    ensures (v.Str? || v.Sym?) ==> r == Ok(Nil) || r == Ok(Str(key))
    ensures r.Ok? <==> v.Hash? || v.Str? || v.Sym?
    ensures (v.Nil? || v.Bool?) ==> r == Err(NoMethodError)
    ensures (v.Int? || v.Arr?) ==> r == Err(TypeError)
  {
    match v
    case Hash(es) => Ok(Fetch(es, Str(key)))
    case Str(s) => Ok(if IsSubstring(key, s) then Str(key) else Nil)
    case Sym(s) => Ok(if IsSubstring(key, s) then Str(key) else Nil)
    case Nil => Err(NoMethodError)
    case Bool(_) => Err(NoMethodError)
    case Int(_) => Err(TypeError)
    case Arr(_) => Err(TypeError)
  }

  // ---------------------------------------------------------------------------
  // `to_s`, as string interpolation uses it
  // ---------------------------------------------------------------------------

  function DecimalDigit(d: nat): (c: char)
    requires d < 10
    ensures '0' <= c <= '9'
  {
    "0123456789"[d]
  }

  function NatToDecimal(n: nat): (r: string)
    ensures |r| > 0
    ensures forall i :: 0 <= i < |r| ==> '0' <= r[i] <= '9'
  {
    if n < 10 then [DecimalDigit(n)] else NatToDecimal(n / 10) + [DecimalDigit(n % 10)]
  }

  /** `"#{v}"`: nil renders as the empty string. */
  function ToS(v: Value): string {
    match v
    case Nil => ""
    case Bool(b) => if b then "true" else "false"
    case Int(i) => if i < 0 then "-" + NatToDecimal(-i) else NatToDecimal(i)
    case Str(s) => s
    case Sym(s) => s
    case Arr(_) => ""
    case Hash(_) => ""
  }

  // ---------------------------------------------------------------------------
  // ASCII character classes of Ruby regular expressions and case mapping
  // ---------------------------------------------------------------------------

  predicate IsUpper(c: char) { 'A' <= c <= 'Z' }
  predicate IsLower(c: char) { 'a' <= c <= 'z' }
  predicate IsDigit(c: char) { '0' <= c <= '9' }

  function UpcaseChar(c: char): (r: char)
    ensures !IsLower(r)
    ensures !IsLower(c) ==> r == c
  {
    if IsLower(c) then (c as int - 32) as char else c
  }

  function DowncaseChar(c: char): (r: char)
    ensures !IsUpper(r)
    ensures !IsUpper(c) ==> r == c
  {
    if IsUpper(c) then (c as int + 32) as char else c
  }
}
