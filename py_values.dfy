/** Values produced by decoding JSON in Python, and the few Python built-ins
    the two Lambda functions apply to them: dict lookup and assignment,
    truthiness, `len`, subscripting and `str()`. */
module PyValues {

  datatype Option<+T> = None | Some(value: T)

  /** A Python operation that either returns a value or raises; `msg` is
      what `str(e)` of the raised exception gives. */
  datatype Result<+T> = Ok(value: T) | Err(msg: string)

  /** A JSON-decoded Python value. Objects keep their members in insertion
      order, as a Python dict does. JSON numbers are integers here. */
  datatype Json =
    | JNull
    | JBool(b: bool)
    | JInt(i: int)
    | JStr(s: string)
    | JList(items: seq<Json>)
    | JObj(members: seq<(string, Json)>)

  type Dict = seq<(string, Json)>

  /** The keys of a dict, in order. */
  function Keys(d: Dict): (ks: seq<string>)
    ensures |ks| == |d|
    ensures forall i :: 0 <= i < |d| ==> ks[i] == d[i].0
  {
    seq(|d|, i requires 0 <= i < |d| => d[i].0)
  }

  /** `d.get(k)`: the value stored under `k`, if any. */
  function Lookup(d: Dict, k: string): (r: Option<Json>)
    ensures r.Some? <==> k in Keys(d)
  {
    if d == [] then None
    else if d[0].0 == k then Some(d[0].1)
    else Lookup(d[1..], k)
  }

  /** `d.get(k, default)` */
  function GetOr(d: Dict, k: string, default: Json): (r: Json)
    ensures k !in Keys(d) ==> r == default
    ensures k in Keys(d) ==> Lookup(d, k) == Some(r)
  {
    match Lookup(d, k)
    case Some(v) => v
    case None => default
  }

  /** `d[k] = v`: an existing key keeps its position, a new key goes last. */
  function Put(d: Dict, k: string, v: Json): (r: Dict)
    ensures Lookup(r, k) == Some(v)
    ensures forall k' :: k' != k ==> Lookup(r, k') == Lookup(d, k')
    ensures |r| == if k in Keys(d) then |d| else |d| + 1
  {
    if d == [] then [(k, v)]
    else if d[0].0 == k then [(k, v)] + d[1..]
    else [d[0]] + Put(d[1..], k, v)
  }

  /** Python truthiness: `bool(j)`. */
  predicate Truthy(j: Json) {
    match j
    case JNull => false
    case JBool(b) => b
    case JInt(i) => i != 0
    case JStr(s) => s != ""
    case JList(xs) => xs != []
    case JObj(ms) => ms != []
  }

  /** The name `type(j).__name__` gives, as it appears in exception messages. */
  function TypeName(j: Json): string {
    match j
    case JNull => "NoneType"
    case JBool(_) => "bool"
    case JInt(_) => "int"
    case JStr(_) => "str"
    case JList(_) => "list"
    case JObj(_) => "dict"
  }

  /** `len(j)` */
  function Len(j: Json): (r: Result<nat>)
    ensures r.Ok? <==> (j.JStr? || j.JList? || j.JObj?)
    ensures j.JStr? ==> r == Ok(|j.s|)
    ensures j.JList? ==> r == Ok(|j.items|)
    ensures j.JObj? ==> r == Ok(|j.members|)
  {
    match j
    case JStr(s) => Ok(|s|)
    case JList(xs) => Ok(|xs|)
    case JObj(ms) => Ok(|ms|)
    case _ => Err("object of type '" + TypeName(j) + "' has no len()")
  }

  /** A subscript: `j['name']` or `j[n]`. */
  datatype Key = Name(name: string) | Index(n: nat)

  /** `j[key]` */
  function Subscript(j: Json, key: Key): (r: Result<Json>)
    ensures j.JObj? && key.Name? && Lookup(j.members, key.name).Some? ==>
              r == Ok(Lookup(j.members, key.name).value)
    ensures j.JList? && key.Index? && key.n < |j.items| ==> r == Ok(j.items[key.n])
    ensures j.JStr? && key.Index? && key.n < |j.s| ==> r == Ok(JStr([j.s[key.n]]))
    ensures j.JStr? && key.Index? && key.n >= |j.s| ==> r == Err("string index out of range")
    ensures j.JStr? && key.Name? ==> r.Err?
    ensures j.JObj? && key.Name? && Lookup(j.members, key.name).None? ==> r == Err(Quoted(key.name))
    ensures j.JObj? && key.Index? ==> r.Err?
    ensures j.JList? && key.Index? && key.n >= |j.items| ==> r == Err("list index out of range")
    ensures j.JList? && key.Name? ==> r.Err?
    ensures r.Ok? ==> j.JObj? || j.JList? || j.JStr?
  {
    match j
    case JObj(ms) =>
      (match key
       case Name(k) => (match Lookup(ms, k)
                        case Some(v) => Ok(v)
                        case None => Err(Quoted(k)))
       // JSON object keys are strings, so an integer key is never present
       case Index(n) => Err(Decimal(n)))
    case JList(xs) =>
      (match key
       case Name(_) => Err("list indices must be integers or slices, not str")
       case Index(n) => if n < |xs| then Ok(xs[n]) else Err("list index out of range"))
    case JStr(s) =>
      (match key
       case Name(_) => Err("string indices must be integers, not 'str'")
       case Index(n) => if n < |s| then Ok(JStr([s[n]])) else Err("string index out of range"))
    case _ => Err("'" + TypeName(j) + "' object is not subscriptable")
  }

  function Digit(d: nat): char
    requires d < 10
  {
    "0123456789"[d]
  }

  /** The decimal numeral of an integer, as `str(n)` writes it. */
  function Decimal(n: int): (r: string)
    ensures r != []
    ensures n >= 0 ==> forall i :: 0 <= i < |r| ==> '0' <= r[i] <= '9'
    decreases if n < 0 then 1 - n else n
  {
    if n < 0 then "-" + Decimal(-n)
    else if n < 10 then [Digit(n)]
    else Decimal(n / 10) + [Digit(n % 10)]
  }

  function HexDigit(d: nat): char
    requires d < 16
  {
    "0123456789abcdef"[d]
  }

  /** The quote `repr()` puts around a string: single quotes, unless the
      string holds a single quote and no double quote. */
  function QuoteFor(s: string): char {
    if '\'' in s && '"' !in s then '"' else '\''
  }

  /** How `repr()` writes one character inside quotes `q`. */
  function EscapeChar(c: char, q: char): string {
    if c == '\\' then "\\\\"
    else if c == q then ['\\', q]
    else if c == '\n' then "\\n"
    else if c == '\r' then "\\r"
    else if c == '\t' then "\\t"
    else if c as int < 0x20 || c as int == 0x7f then
      ['\\', 'x', HexDigit(c as int / 16), HexDigit(c as int % 16)]
    else [c]
  }

  function EscapeString(s: string, q: char): string {
    if s == [] then "" else EscapeChar(s[0], q) + EscapeString(s[1..], q)
  }

  /** The strings of `parts` separated by `sep`, as `sep.join(parts)`. */
  function Join(sep: string, parts: seq<string>): string {
    if parts == [] then ""
    else if |parts| == 1 then parts[0]
    else parts[0] + sep + Join(sep, parts[1..])
  }

  /** `repr(s)` of a string */
  function Quoted(s: string): string {
    [QuoteFor(s)] + EscapeString(s, QuoteFor(s)) + [QuoteFor(s)]
  }

  /** `repr(j)` */
  function Repr(j: Json): string {
    match j
    case JNull => "None"
    case JBool(b) => if b then "True" else "False"
    case JInt(i) => Decimal(i)
    case JStr(s) => Quoted(s)
    case JList(xs) =>
      "[" + Join(", ", seq(|xs|, k requires 0 <= k < |xs| => Repr(xs[k]))) + "]"
    case JObj(ms) =>
      "{" + Join(", ", seq(|ms|, k requires 0 <= k < |ms| =>
                             Quoted(ms[k].0) + ": " + Repr(ms[k].1))) + "}"
  }

  /** `str(j)`, which is what an f-string interpolates: a string is itself,
      every other value is its `repr()`. */
  function Show(j: Json): (r: string)
    ensures j.JStr? ==> r == j.s
    ensures j == JNull ==> r == "None"
  {
    if j.JStr? then j.s else Repr(j)
  }

  // ---- Sequence facts used by the loop proofs ----

  lemma Assoc<T>(a: seq<T>, b: seq<T>, c: seq<T>)
    ensures a + b + c == a + (b + c)
  {
  }

  lemma PrefixSnoc<T>(xs: seq<T>, i: nat)
    requires i < |xs|
    ensures xs[..i + 1] == xs[..i] + [xs[i]]
  {
  }

  lemma TailSnoc<T>(xs: seq<T>, x: T)
    requires xs != []
    ensures (xs + [x])[1..] == xs[1..] + [x]
  {
  }

  lemma TailIndex<T>(xs: seq<T>)
    requires xs != []
    ensures forall i :: 1 <= i < |xs| ==> xs[i] == xs[1..][i - 1]
  {
  }

  lemma Split<T>(xs: seq<T>, i: nat)
    requires i < |xs|
    ensures xs == xs[..i] + [xs[i]] + xs[i + 1..]
  {
  }

  // ---- Selecting the present entries of a list of optional values ----

  /** The values of the present entries, in order. */
  function Kept<T>(os: seq<Option<T>>): seq<T> {
    if os == [] then [] else (match os[0] case Some(v) => [v] case None => []) + Kept(os[1..])
  }

  /** `idx` lists, in increasing order, exactly the positions of the
      present entries of `os`, and `out` holds their values. */
  predicate Selects<T(==)>(os: seq<Option<T>>, out: seq<T>, idx: seq<nat>) {
    && |idx| == |out|
    && (forall k :: 0 <= k < |idx| ==> idx[k] < |os| && os[idx[k]] == Some(out[k]))
    && (forall k, l :: 0 <= k < l < |idx| ==> idx[k] < idx[l])
    && (forall i :: 0 <= i < |os| && os[i].Some? ==> i in idx)
  }

  function Shift(idx: seq<nat>): (r: seq<nat>)
    ensures |r| == |idx|
    ensures forall k :: 0 <= k < |idx| ==> r[k] == idx[k] + 1
  {
    seq(|idx|, k requires 0 <= k < |idx| => idx[k] + 1)
  }

  /** The positions of the present entries of any list of optional values. */
  lemma {:induction false} KeptSelects<T>(os: seq<Option<T>>) returns (idx: seq<nat>)
    ensures Selects(os, Kept(os), idx)
  {
    if os == [] {
      idx := [];
    } else {
      var rest := KeptSelects(os[1..]);
      ShiftSelects(os, rest);
      if os[0].None? {
        idx := Shift(rest);
        AbsentSelects(os, idx);
      } else {
        idx := [0] + Shift(rest);
        ConsSelects(os, os[0].value, Shift(rest));
      }
    }
  }

  /** An absent head adds no position. */
  lemma AbsentSelects<T>(os: seq<Option<T>>, shifted: seq<nat>)
    requires os != [] && os[0].None?
    requires |shifted| == |Kept(os[1..])|
    requires forall k :: 0 <= k < |shifted| ==> 0 < shifted[k] < |os| && os[shifted[k]] == Some(Kept(os[1..])[k])
    requires forall k, l :: 0 <= k < l < |shifted| ==> shifted[k] < shifted[l]
    requires forall i :: 0 < i < |os| && os[i].Some? ==> i in shifted
    ensures Selects(os, Kept(os), shifted)
  {
    assert Kept(os) == Kept(os[1..]);
  }

  /** The positions in the tail, moved up by one, are positions in the
      whole list. */
  lemma ShiftSelects<T>(os: seq<Option<T>>, rest: seq<nat>)
    requires os != [] && Selects(os[1..], Kept(os[1..]), rest)
    ensures |Shift(rest)| == |Kept(os[1..])|
    ensures forall k :: 0 <= k < |rest| ==> Shift(rest)[k] < |os| && os[Shift(rest)[k]] == Some(Kept(os[1..])[k])
    ensures forall k, l :: 0 <= k < l < |rest| ==> Shift(rest)[k] < Shift(rest)[l]
    ensures forall i :: 0 < i < |os| && os[i].Some? ==> i in Shift(rest)
  {
    var shifted := Shift(rest);
    forall i | 0 < i < |os| && os[i].Some?
      ensures i in shifted
    {
      assert os[1..][i - 1] == os[i];
      var k :| 0 <= k < |rest| && rest[k] == i - 1;
      assert shifted[k] == i;
    }
    forall k | 0 <= k < |rest|
      ensures shifted[k] < |os| && os[shifted[k]] == Some(Kept(os[1..])[k])
    {
      assert os[1..][rest[k]] == os[shifted[k]];
    }
  }

  /** A present head is position 0, in front of the shifted positions. */
  lemma ConsSelects<T>(os: seq<Option<T>>, r: T, shifted: seq<nat>)
    requires os != [] && os[0] == Some(r)
    requires |shifted| == |Kept(os[1..])|
    requires forall k :: 0 <= k < |shifted| ==> 0 < shifted[k] < |os| && os[shifted[k]] == Some(Kept(os[1..])[k])
    requires forall k, l :: 0 <= k < l < |shifted| ==> shifted[k] < shifted[l]
    requires forall i :: 0 < i < |os| && os[i].Some? ==> i in shifted
    ensures Selects(os, Kept(os), [0] + shifted)
  {
    var idx := [0] + shifted;
    var out := Kept(os);
    assert out == [r] + Kept(os[1..]);
    forall k | 0 < k < |idx|
      ensures idx[k] == shifted[k - 1] && out[k] == Kept(os[1..])[k - 1]
    {
    }
  }

  /** With every entry present, nothing is dropped. */
  lemma {:induction false} AllKept<T>(os: seq<Option<T>>)
    requires forall i :: 0 <= i < |os| ==> os[i].Some?
    ensures |Kept(os)| == |os|
    ensures forall i :: 0 <= i < |os| ==> os[i] == Some(Kept(os)[i])
  {
    if os != [] {
      TailIndex(os);
      AllKept(os[1..]);
      assert Kept(os) == [os[0].value] + Kept(os[1..]);
    }
  }
}
