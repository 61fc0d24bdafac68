/** The JSON-like documents the service passes around (Firestore
    documents, Slack payloads, model output): Python's `None`, booleans,
    integers, strings, lists and insertion-ordered dicts, with Python's
    truthiness, `dict.get` and `str()`. */
module PyValue {
  import opened Wrappers
  import opened Text

  datatype Value =
    | VNone
    | VBool(b: bool)
    | VInt(i: int)
    | VStr(s: string)
    | VTime(minute: string)              // a datetime; `minute` is its "%Y-%m-%d %H:%M" rendering
    | VList(items: seq<Value>)
    | VDict(entries: seq<(string, Value)>)

  /** Python's `bool(v)`. */
  predicate Truthy(v: Value) {
    match v
    case VNone => false
    case VBool(b) => b
    case VInt(i) => i != 0
    case VStr(s) => s != []
    case VTime(_) => true
    case VList(items) => items != []
    case VDict(entries) => entries != []
  }

  // ---------------------------------------------------------------------
  // Dicts as insertion-ordered entry lists

  function Keys(entries: seq<(string, Value)>): (r: seq<string>)
    ensures |r| == |entries|
    ensures forall i :: 0 <= i < |entries| ==> r[i] == entries[i].0
  {
    if entries == [] then [] else [entries[0].0] + Keys(entries[1..])
  }

  /** Values Python can put in a set or use as a dict key. */
  predicate Hashable(v: Value) {
    !v.VList? && !v.VDict?
  }

  /** No key occurs twice, as in every Python dict. */
  predicate UniqueKeys(entries: seq<(string, Value)>) {
    forall i, j :: 0 <= i < j < |entries| ==> entries[i].0 != entries[j].0
  }

  /** `d.get(k)`: the value stored under `k`, if any. */
  function Lookup(entries: seq<(string, Value)>, k: string): (r: Option<Value>)
    ensures r.None? <==> k !in Keys(entries)
    ensures r.Some? ==> exists i :: 0 <= i < |entries| && entries[i] == (k, r.value)
  {
    if entries == [] then None
    else if entries[0].0 == k then Some(entries[0].1)
    else Lookup(entries[1..], k)
  }

  /** The entry at `i` is found when no earlier entry has its key. */
  lemma {:induction false} LookupAt(entries: seq<(string, Value)>, i: nat)
    requires i < |entries|
    requires forall j :: 0 <= j < i ==> entries[j].0 != entries[i].0
    ensures Lookup(entries, entries[i].0) == Some(entries[i].1)
  {
    if i > 0 {
      LookupAt(entries[1..], i - 1);
    }
  }

  /** Looking up in a dict with one more entry at the end. */
  lemma {:induction false} LookupSnoc(entries: seq<(string, Value)>, e: (string, Value), k: string)
    ensures Lookup(entries + [e], k) ==
              if Lookup(entries, k).Some? then Lookup(entries, k) else if e.0 == k then Some(e.1) else None
  {
    if entries != [] {
      assert (entries + [e])[1..] == entries[1..] + [e];
      LookupSnoc(entries[1..], e, k);
    }
  }

  /** The last entry's key is not among the earlier ones. */
  lemma LastKeyFresh(entries: seq<(string, Value)>)
    requires UniqueKeys(entries) && entries != []
    ensures entries == entries[..|entries| - 1] + [entries[|entries| - 1]]
    ensures UniqueKeys(entries[..|entries| - 1])
    ensures Lookup(entries[..|entries| - 1], entries[|entries| - 1].0).None?
  {
    var init := entries[..|entries| - 1];
    assert forall j :: 0 <= j < |init| ==> init[j].0 != entries[|entries| - 1].0;
  }

  /** `d.get(k, default)`: only a missing key gives the default; a key
      stored with `None` gives `None`. */
  function GetOr(entries: seq<(string, Value)>, k: string, default: Value): Value {
    match Lookup(entries, k)
    case Some(v) => v
    case None => default
  }

  /** `value.get(k, default)` on a value read from a document, which is a
      dict in the data the service writes. */
  function Field(v: Value, k: string, default: Value): Value {
    if v.VDict? then GetOr(v.entries, k, default) else default
  }

  /** `d[k] = v`: an existing key keeps its position, a new key goes last. */
  function Put(entries: seq<(string, Value)>, k: string, v: Value): (r: seq<(string, Value)>)
    ensures k in Keys(entries) ==> Keys(r) == Keys(entries)
    ensures k !in Keys(entries) ==> Keys(r) == Keys(entries) + [k]
  {
    if entries == [] then [(k, v)]
    else if entries[0].0 == k then [(k, v)] + entries[1..]
    else [entries[0]] + Put(entries[1..], k, v)
  }

  /** Reading back after `d[k] = v` gives `v` under `k` and the old value
      under every other key. */
  lemma {:induction false} LookupPut(entries: seq<(string, Value)>, k: string, v: Value, k': string)
    ensures Lookup(Put(entries, k, v), k') == if k' == k then Some(v) else Lookup(entries, k')
  {
    if entries != [] && entries[0].0 != k {
      LookupPut(entries[1..], k, v, k');
    }
  }

  /** `d[k] = v` keeps the keys unique. */
  lemma {:induction false} PutUnique(entries: seq<(string, Value)>, k: string, v: Value)
    requires UniqueKeys(entries)
    ensures UniqueKeys(Put(entries, k, v))
  {
    var r := Put(entries, k, v);
    var kr := Keys(r);
    var ke := Keys(entries);
    forall i, j | 0 <= i < j < |r| ensures r[i].0 != r[j].0 {
      assert kr[i] == r[i].0 && kr[j] == r[j].0;
      if k in ke {
        assert ke[i] == entries[i].0 && ke[j] == entries[j].0;
      } else {
        if j < |entries| {
          assert ke[i] == entries[i].0 && ke[j] == entries[j].0;
        } else {
          assert kr[j] == k;
          assert ke[i] == entries[i].0;
        }
      }
    }
  }

  /** Iterating a value: a list yields its items, a string its characters,
      a dict its keys; anything else raises (`None`). */
  function Iterate(v: Value): Option<seq<Value>> {
    match v
    case VList(items) => Some(items)
    case VStr(s) => Some(Chars(s))
    case VDict(entries) => Some(KeyValues(entries))
    case _ => None
  }

  /** The one-character strings of `s`. */
  function Chars(s: string): (r: seq<Value>)
    ensures |r| == |s|
  {
    if s == [] then [] else [VStr([s[0]])] + Chars(s[1..])
  }

  /** The keys of a dict, as strings. */
  function KeyValues(entries: seq<(string, Value)>): (r: seq<Value>)
    ensures |r| == |entries|
  {
    if entries == [] then [] else [VStr(entries[0].0)] + KeyValues(entries[1..])
  }

  /** `v[:n]` for a non-negative `n`: a list slice, or the first
      characters of a string as one-character strings; anything else
      raises. */
  function Slice(v: Value, n: nat): (r: Option<seq<Value>>)
    ensures r.Some? ==> |r.value| <= n
  {
    match v
    case VList(items) => Some(Take(items, n))
    case VStr(s) => Some(Chars(Take(s, n)))
    case _ => None
  }

  /** The texts of `parts` when every part is a string. */
  function Texts(parts: seq<Value>): Option<seq<string>> {
    if parts == [] then Some([])
    else if !parts[|parts| - 1].VStr? then None
    else match Texts(parts[..|parts| - 1])
      case None => None
      case Some(init) => Some(init + [parts[|parts| - 1].s])
  }

  /** One more string part adds its text at the end. */
  lemma TextsSnoc(parts: seq<Value>, s: string)
    ensures Texts(parts + [VStr(s)]) == match Texts(parts) case None => None case Some(ts) => Some(ts + [s])
  {
    assert (parts + [VStr(s)])[..|parts|] == parts;
  }

  /** `sep.join(parts)`: raises (`None`) unless every part is a string. */
  function JoinTexts(parts: seq<Value>, sep: string): Option<string> {
    match Texts(parts)
    case None => None
    case Some(texts) => Some(Join(texts, sep))
  }

  // ---------------------------------------------------------------------
  // str() and repr()

  /** Python's `repr(v)`, with strings in single quotes (the escaping of
      quotes and control characters is not modelled). */
  function Repr(v: Value): string
    decreases v, 1
  {
    match v
    case VNone => "None"
    case VBool(b) => if b then "True" else "False"
    case VInt(i) => IntToString(i)
    case VStr(s) => "'" + s + "'"
    case VTime(t) => t
    case VList(items) => "[" + ReprItems(items) + "]"
    case VDict(entries) => "{" + ReprEntries(entries) + "}"
  }

  function ReprItems(items: seq<Value>): string
    decreases items, 0
  {
    if items == [] then ""
    else if |items| == 1 then Repr(items[0])
    else Repr(items[0]) + ", " + ReprItems(items[1..])
  }

  function ReprEntries(entries: seq<(string, Value)>): string
    decreases entries, 0
  {
    if entries == [] then ""
    else
      var e := entries[0];
      assert e.1 < e;
      var head := "'" + e.0 + "': " + Repr(e.1);
      if |entries| == 1 then head else head + ", " + ReprEntries(entries[1..])
  }

  /** Python's `str(v)`: a string is itself, anything else its repr. */
  function Str(v: Value): (r: string)
    ensures v.VStr? ==> r == v.s
    ensures v.VInt? ==> r == IntToString(v.i)
    ensures v == VNone ==> r == "None"
  {
    if v.VStr? then v.s else Repr(v)
  }

  /** A report's time as shown: a datetime as "%Y-%m-%d %H:%M", anything
      else as its text. */
  function Stamp(v: Value): string {
    if v.VTime? then v.minute else Str(v)
  }

  /** `str(v)` of every element. */
  function StrAll(vs: seq<Value>): (r: seq<string>)
    ensures |r| == |vs| && forall i :: 0 <= i < |vs| ==> r[i] == Str(vs[i])
  {
    if vs == [] then [] else StrAll(vs[..|vs| - 1]) + [Str(vs[|vs| - 1])]
  }

  /** Texts as Python strings. */
  function Strs(ss: seq<string>): (r: seq<Value>)
    ensures |r| == |ss| && forall i :: 0 <= i < |ss| ==> r[i] == VStr(ss[i])
  {
    if ss == [] then [] else Strs(ss[..|ss| - 1]) + [VStr(ss[|ss| - 1])]
  }

  lemma {:induction false} TextsOfStrs(ss: seq<string>)
    ensures Texts(Strs(ss)) == Some(ss)
  {
    if ss != [] {
      var init := ss[..|ss| - 1];
      TextsOfStrs(init);
      assert Strs(ss) == Strs(init) + [VStr(ss[|ss| - 1])];
      TextsSnoc(Strs(init), ss[|ss| - 1]);
      assert init + [ss[|ss| - 1]] == ss;
    }
  }
}
