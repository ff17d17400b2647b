/**
 * A recipe file after YAML loading: the value `yaml.safe_load` returns.
 * Mappings keep their document order, which the validator's error order
 * and the flag concatenation depend on.
 */
module Document {
  import opened Wrappers

  datatype Value =
    | Null
    | Bool(b: bool)
    | Int(i: int)
    | Str(s: string)
    | List(items: seq<Value>)
    | Map(entries: seq<(string, Value)>)

  /** Either the loader rejected the text, or it produced a value. */
  datatype Document = Unparsable | Parsed(root: Value)

  /** Python truthiness of a loaded value. */
  predicate Truthy(v: Value) {
    match v
    case Null => false
    case Bool(b) => b
    case Int(i) => i != 0
    case Str(s) => s != ""
    case List(xs) => xs != []
    case Map(es) => es != []
  }

  /** `d[k]` on a mapping; `None` is the `KeyError`. */
  function Lookup(es: seq<(string, Value)>, k: string): Option<Value> {
    if es == [] then None
    else if es[0].0 == k then Some(es[0].1)
    else Lookup(es[1..], k)
  }

  predicate HasKey(es: seq<(string, Value)>, k: string) {
    Lookup(es, k).Some?
  }

  /** The value under `k`, or `Null` when there is none. */
  function Get(es: seq<(string, Value)>, k: string): Value {
    match Lookup(es, k)
    case Some(v) => v
    case None => Null
  }

  /** A loaded mapping never holds the same key twice. */
  predicate DistinctKeys<T>(es: seq<(string, T)>) {
    forall i, j :: 0 <= i < j < |es| ==> es[i].0 != es[j].0
  }

  function EntriesOf(v: Value): seq<(string, Value)> {
    if v.Map? then v.entries else []
  }

  function StrOf(v: Value): string {
    if v.Str? then v.s else ""
  }

  /** A key is present exactly when some entry carries it, and lookup returns that entry's value. */
  lemma {:induction false} LookupFinds(es: seq<(string, Value)>, k: string)
    ensures HasKey(es, k) <==> exists i :: 0 <= i < |es| && es[i].0 == k
    ensures HasKey(es, k) ==> exists i :: 0 <= i < |es| && es[i] == (k, Get(es, k))
  {
    if es != [] {
      LookupFinds(es[1..], k);
      if es[0].0 != k {
        if HasKey(es, k) {
          var i :| 0 <= i < |es[1..]| && es[1..][i] == (k, Get(es[1..], k));
          assert es[i + 1] == (k, Get(es, k));
        }
        if exists i :: 0 <= i < |es| && es[i].0 == k {
          var i :| 0 <= i < |es| && es[i].0 == k;
          assert es[1..][i - 1].0 == k;
        }
      }
    }
  }

  /** With distinct keys, lookup of an entry's key yields that entry's value. */
  lemma GetAt(es: seq<(string, Value)>, i: int)
    requires DistinctKeys(es) && 0 <= i < |es|
    ensures HasKey(es, es[i].0) && Get(es, es[i].0) == es[i].1
  {
    LookupFinds(es, es[i].0);
    var j :| 0 <= j < |es| && es[j] == (es[i].0, Get(es, es[i].0));
    assert i == j;
  }
}
