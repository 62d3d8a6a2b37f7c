/**
 * The loosely typed values the codec reads and writes: what `json.loads`
 * produces and `json.dumps` consumes, seen as Python objects.
 */
module Wire {
  import opened Wrappers

  /** A Python float, kept opaque: it is identified by the text `repr()` gives it ("1.5", "0.0", "-0.0"). */
  datatype Float = Float(repr: string)

  /**
   * None, bool, int, float, str, list and dict. A dict is its entries in
   * insertion order; when a key repeats, a lookup sees the later entry,
   * as `json.loads` keeps the last of repeated keys.
   */
  datatype Value =
    | Null
    | Bool(b: bool)
    | Int(i: int)
    | Num(f: Float)
    | Str(s: string)
    | List(items: seq<Value>)
    | Dict(entries: seq<(string, Value)>)

  /** The Python built-in exceptions that the modelled code raises or lets through. */
  datatype Exc = TypeError | KeyError | AttributeError | IndexError | ValueError | UnboundLocalError | RuntimeError

  predicate IsZero(f: Float) {
    f.repr == "0.0" || f.repr == "-0.0"
  }

  /** Python's `bool(v)`: None, False, 0, 0.0 and empty containers are false. */
  predicate Truthy(v: Value) {
    match v
    case Null => false
    case Bool(b) => b
    case Int(i) => i != 0
    case Num(f) => !IsZero(f)
    case Str(s) => s != []
    case List(xs) => xs != []
    case Dict(es) => es != []
  }

  function KeySet(es: seq<(string, Value)>): set<string> {
    set i | 0 <= i < |es| :: es[i].0
  }

  predicate DistinctKeys(es: seq<(string, Value)>) {
    forall i, j :: 0 <= i < j < |es| ==> es[i].0 != es[j].0
  }

  /** `d[k]` on a dict: the value of the last entry with key `k`, or None when `k` is absent (a KeyError). */
  function Lookup(es: seq<(string, Value)>, k: string): (r: Option<Value>)
    ensures r.Some? <==> k in KeySet(es)
    ensures r.Some? ==> exists i :: 0 <= i < |es| && es[i] == (k, r.value)
    decreases |es|
  {
    if es == [] then None
    else
      var init := es[..|es| - 1];
      assert KeySet(es) == KeySet(init) + {es[|es| - 1].0} by {
        forall key | key in KeySet(es) ensures key in KeySet(init) + {es[|es| - 1].0} {
          var i :| 0 <= i < |es| && es[i].0 == key;
          if i < |es| - 1 { assert init[i] == es[i]; }
        }
        forall key | key in KeySet(init) ensures key in KeySet(es) {
          var i :| 0 <= i < |init| && init[i].0 == key;
          assert es[i] == init[i];
        }
      }
      if es[|es| - 1].0 == k then Some(es[|es| - 1].1)
      else
        var r := Lookup(init, k);
        assert r.Some? ==> exists i :: 0 <= i < |es| && es[i] == (k, r.value) by {
          if r.Some? {
            var i :| 0 <= i < |init| && init[i] == (k, r.value);
            assert es[i] == init[i];
          }
        }
        r
  }

  /** In a dict without repeated keys, each entry is what a lookup of its key finds. */
  lemma {:induction false} LookupDistinct(es: seq<(string, Value)>, i: nat)
    requires DistinctKeys(es) && i < |es|
    ensures Lookup(es, es[i].0) == Some(es[i].1)
    decreases |es|
  {
    if i < |es| - 1 {
      var init := es[..|es| - 1];
      assert init[i] == es[i];
      assert DistinctKeys(init) by {
        forall a, b | 0 <= a < b < |init| ensures init[a].0 != init[b].0 {
          assert init[a] == es[a] && init[b] == es[b];
        }
      }
      LookupDistinct(init, i);
    }
  }

  /** `d[k] = v` on a dict: an existing key keeps its position and takes the new value; a new key is appended. */
  function Assign(es: seq<(string, Value)>, k: string, v: Value): (r: seq<(string, Value)>)
    ensures KeySet(r) == KeySet(es) + {k}
  {
    if k in KeySet(es) then
      var r := seq(|es|, i requires 0 <= i < |es| => if es[i].0 == k then (k, v) else es[i]);
      assert KeySet(r) == KeySet(es) by {
        forall key | key in KeySet(es) ensures key in KeySet(r) {
          var i :| 0 <= i < |es| && es[i].0 == key;
          assert r[i].0 == key;
        }
      }
      r
    else
      var r := es + [(k, v)];
      assert KeySet(r) == KeySet(es) + {k} by {
        assert r[|es|].0 == k;
        forall key | key in KeySet(es) ensures key in KeySet(r) {
          var i :| 0 <= i < |es| && es[i].0 == key;
          assert r[i] == es[i];
        }
      }
      r
  }

  /**
   * The dict that `json.loads` builds from an object's members, as
   * `dict(pairs)` does: the pairs assigned in order, so each key stands once,
   * at its first position, holding its last value.
   */
  function DictOf(es: seq<(string, Value)>): seq<(string, Value)>
    decreases |es|
  {
    if es == [] then [] else Assign(DictOf(es[..|es| - 1]), es[|es| - 1].0, es[|es| - 1].1)
  }

  lemma KeySetLast(es: seq<(string, Value)>)
    requires es != []
    ensures KeySet(es) == KeySet(es[..|es| - 1]) + {es[|es| - 1].0}
  {
    var init := es[..|es| - 1];
    forall key | key in KeySet(es) ensures key in KeySet(init) + {es[|es| - 1].0} {
      var i :| 0 <= i < |es| && es[i].0 == key;
      if i < |es| - 1 { assert init[i] == es[i]; }
    }
    forall key | key in KeySet(init) ensures key in KeySet(es) {
      var i :| 0 <= i < |init| && init[i].0 == key;
      assert es[i] == init[i];
    }
  }

  /** Assigning to a dict without repeated keys keeps it so. */
  lemma AssignDistinct(d: seq<(string, Value)>, k: string, v: Value)
    requires DistinctKeys(d)
    ensures DistinctKeys(Assign(d, k, v))
    ensures k !in KeySet(d) ==> Assign(d, k, v) == d + [(k, v)]
    ensures k in KeySet(d) ==> |Assign(d, k, v)| == |d|
    ensures k in KeySet(d) ==> forall i :: 0 <= i < |d| ==> Assign(d, k, v)[i] == if d[i].0 == k then (k, v) else d[i]
  {
    var r := Assign(d, k, v);
    if k !in KeySet(d) {
      forall a, b | 0 <= a < b < |r| ensures r[a].0 != r[b].0 {
        if b == |d| { assert r[a] == d[a] && d[a].0 in KeySet(d); }
      }
    }
  }

  /** The dict has no repeated key and the same keys as the members. */
  lemma {:induction false} DictOfDistinct(es: seq<(string, Value)>)
    ensures DistinctKeys(DictOf(es)) && KeySet(DictOf(es)) == KeySet(es)
    decreases |es|
  {
    if es != [] {
      var init := es[..|es| - 1];
      DictOfDistinct(init);
      KeySetLast(es);
      AssignDistinct(DictOf(init), es[|es| - 1].0, es[|es| - 1].1);
    }
  }

  /** Under each key the dict holds the last member's value. */
  lemma {:induction false} DictOfValues(es: seq<(string, Value)>)
    ensures forall i :: 0 <= i < |DictOf(es)| ==> Lookup(es, DictOf(es)[i].0) == Some(DictOf(es)[i].1)
    decreases |es|
  {
    if es != [] {
      var init := es[..|es| - 1];
      var last := es[|es| - 1];
      var d := DictOf(init);
      DictOfValues(init);
      DictOfDistinct(init);
      AssignDistinct(d, last.0, last.1);
      var r := DictOf(es);
      forall i | 0 <= i < |r| ensures Lookup(es, r[i].0) == Some(r[i].1) {
        if i < |d| && d[i].0 != last.0 {
          assert r[i] == d[i];
        }
      }
    }
  }

  /** Members without repeated keys are already the dict. */
  lemma {:induction false} DictOfDistinctKeys(es: seq<(string, Value)>)
    requires DistinctKeys(es)
    ensures DictOf(es) == es
    decreases |es|
  {
    if es != [] {
      var init := es[..|es| - 1];
      var last := es[|es| - 1];
      assert DistinctKeys(init) by {
        forall a, b | 0 <= a < b < |init| ensures init[a].0 != init[b].0 {
          assert init[a] == es[a] && init[b] == es[b];
        }
      }
      DictOfDistinctKeys(init);
      assert last.0 !in KeySet(init);
      assert es == init + [last];
    }
  }

  /** A lookup in the dict finds what a lookup among the members finds. */
  lemma DictOfLookup(es: seq<(string, Value)>, k: string)
    ensures Lookup(DictOf(es), k) == Lookup(es, k)
  {
    DictOfDistinct(es);
    DictOfValues(es);
    var d := DictOf(es);
    if k in KeySet(d) {
      var i :| 0 <= i < |d| && d[i].0 == k;
      LookupDistinct(d, i);
    }
  }

  /**
   * Iterating over a value in a `for`: a list gives its elements, a dict its
   * keys and a str its characters; anything else is not iterable (a TypeError).
   */
  function Iterate(v: Value): (r: Option<seq<Value>>)
    ensures v.List? ==> r == Some(v.items)
    ensures r.Some? <==> v.List? || v.Dict? || v.Str?
    ensures r.Some? ==> (|r.value| == 0 <==> !Truthy(v))
  {
    match v
    case List(xs) => Some(xs)
    case Dict(es) => Some(seq(|es|, i requires 0 <= i < |es| => Str(es[i].0)))
    case Str(s) => Some(seq(|s|, i requires 0 <= i < |s| => Str([s[i]])))
    case _ => None
  }

  function DigitChar(d: nat): char
    requires d < 10
  {
    "0123456789"[d]
  }

  function Digits(n: nat): (s: string)
    ensures |s| >= 1
    decreases n
  {
    if n < 10 then [DigitChar(n)] else Digits(n / 10) + [DigitChar(n % 10)]
  }

  /** `str(i)` for a Python int. */
  function IntToString(i: int): string {
    if i < 0 then "-" + Digits(-i) else Digits(i)
  }

  function Join(sep: string, parts: seq<string>): string
    decreases |parts|
  {
    if parts == [] then "" else if |parts| == 1 then parts[0] else parts[0] + sep + Join(sep, parts[1..])
  }

  /**
   * `str(v)`, as an f-string renders a value. A str inside a list or dict is
   * shown as `repr` would, between single quotes.
   */
  function PyStr(v: Value): string {
    match v
    case Str(s) => s
    case _ => PyRepr(v)
  }

  function PyRepr(v: Value): string
    decreases v
  {
    match v
    case Null => "None"
    case Bool(b) => if b then "True" else "False"
    case Int(i) => IntToString(i)
    case Num(f) => f.repr
    case Str(s) => "'" + s + "'"
    case List(xs) => "[" + Join(", ", seq(|xs|, i requires 0 <= i < |xs| => PyRepr(xs[i]))) + "]"
    case Dict(es) =>
      "{" + Join(", ", seq(|es|, i requires 0 <= i < |es| => "'" + es[i].0 + "': " + PyRepr(es[i].1))) + "}"
  }
}
