/** JSON payloads, the canonical text `canonical_payload_digest` hashes, and a parser that undoes it.

    A Python dict is a sequence of fields with distinct keys, in insertion order. The encoder sorts
    the fields of every object by key and then writes compact text with the escapes of section 7 of
    RFC 8259 (non-ASCII characters stay as they are). */
module CanonicalJson {
  import opened Basics

  datatype Json =
    | Null
    | Bool(flag: bool)
    | Int(number: int)
    | Str(text: string)
    | Arr(items: seq<Json>)
    | Obj(fields: seq<Field>)

  datatype Field = Field(key: string, value: Json)

  /** What a payload means: objects are finite maps, so insertion order is gone. */
  datatype Value =
    | VNull
    | VBool(flag: bool)
    | VInt(number: int)
    | VStr(text: string)
    | VArr(items: seq<Value>)
    | VObj(fields: map<string, Value>)

  /** Every object has distinct keys, as every Python dict does. */
  predicate WellFormed(j: Json)
  {
    match j
    case Arr(items) => WellFormedItems(items)
    case Obj(fields) => WellFormedFields(fields)
    case _ => true
  }

  predicate WellFormedItems(xs: seq<Json>)
  {
    xs == [] || (WellFormed(xs[0]) && WellFormedItems(xs[1..]))
  }

  predicate WellFormedFields(fs: seq<Field>)
  {
    fs == [] || (WellFormed(fs[0].value) && !HasKey(fs[1..], fs[0].key) && WellFormedFields(fs[1..]))
  }

  predicate HasKey(fs: seq<Field>, key: string)
  {
    exists i :: 0 <= i < |fs| && fs[i].key == key
  }

  type Payload = j: Json | WellFormed(j) witness Null

  function Meaning(j: Json): Value
  {
    match j
    case Null => VNull
    case Bool(b) => VBool(b)
    case Int(n) => VInt(n)
    case Str(s) => VStr(s)
    case Arr(items) => VArr(MeaningOfItems(items))
    case Obj(fields) => VObj(MeaningOfFields(fields))
  }

  function MeaningOfItems(xs: seq<Json>): (vs: seq<Value>)
  {
    if xs == [] then [] else [Meaning(xs[0])] + MeaningOfItems(xs[1..])
  }

  function MeaningOfFields(fs: seq<Field>): (m: map<string, Value>)
    ensures forall k :: k in m <==> HasKey(fs, k)
  {
    if fs == [] then map[]
    else
      var m := MeaningOfFields(fs[1..])[fs[0].key := Meaning(fs[0].value)];
      assert forall k :: HasKey(fs, k) <==> k == fs[0].key || HasKey(fs[1..], k) by {
        forall k ensures HasKey(fs, k) <==> k == fs[0].key || HasKey(fs[1..], k) {
          HasKeyCons(fs, k);
        }
      }
      m
  }

  lemma HasKeyCons(fs: seq<Field>, k: string)
    requires fs != []
    ensures HasKey(fs, k) <==> k == fs[0].key || HasKey(fs[1..], k)
  {
    if HasKey(fs, k) && k != fs[0].key {
      var i :| 0 <= i < |fs| && fs[i].key == k;
      assert fs[1..][i - 1].key == k;
    }
    if HasKey(fs[1..], k) {
      var i :| 0 <= i < |fs[1..]| && fs[1..][i].key == k;
      assert fs[i + 1].key == k;
    }
  }

  /** The value an object holds under the key of its i-th field. */
  lemma {:induction false} MeaningAt(fs: seq<Field>, i: nat)
    requires i < |fs| && WellFormedFields(fs)
    ensures HasKey(fs, fs[i].key)
    ensures MeaningOfFields(fs)[fs[i].key] == Meaning(fs[i].value)
  {
    if i > 0 {
      MeaningAt(fs[1..], i - 1);
      assert fs[1..][i - 1] == fs[i];
    }
  }

  // ---------------------------------------------------------------- key order

  /** Python's string order: lexicographic by code point. */
  predicate Before(a: string, b: string)
  {
    b != [] && (a == [] || a[0] < b[0] || (a[0] == b[0] && Before(a[1..], b[1..])))
  }

  /** The texts first differ. */
  predicate DifferAt(a: string, b: string, i: nat)
  {
    i < |a| && i < |b| && a[..i] == b[..i] && a[i] < b[i]
  }

  /** One text comes before another if it is a proper beginning of it, or has the smaller character where they first
      differ. */
  lemma {:induction false} BeforeMeans(a: string, b: string)
    ensures Before(a, b) <==> a < b || exists i :: DifferAt(a, b, i)
  {
    if a == [] || b == [] {
    } else if a[0] != b[0] {
      assert a[0] < b[0] ==> DifferAt(a, b, 0);
    } else {
      BeforeMeans(a[1..], b[1..]);
      assert a == [a[0]] + a[1..] && b == [b[0]] + b[1..];
      if i: nat :| DifferAt(a[1..], b[1..], i) {
        assert a[..i + 1] == [a[0]] + a[1..][..i] && b[..i + 1] == [b[0]] + b[1..][..i];
        assert DifferAt(a, b, i + 1);
      }
      if i: nat :| DifferAt(a, b, i) {
        assert a[1..][..i - 1] == a[..i][1..] && b[1..][..i - 1] == b[..i][1..];
        assert DifferAt(a[1..], b[1..], i - 1);
      }
    }
  }

  lemma {:induction false} BeforeTotal(a: string, b: string)
    ensures Before(a, b) || a == b || Before(b, a)
    ensures !(Before(a, b) && Before(b, a)) && !Before(a, a)
  {
    if a != [] && b != [] {
      BeforeTotal(a[1..], b[1..]);
      if a[0] == b[0] && a[1..] == b[1..] {
        assert a == [a[0]] + a[1..] && b == [b[0]] + b[1..];
      }
    }
    if a != [] { BeforeTotal(a[1..], a[1..]); }
  }

  lemma {:induction false} BeforeTransitive(a: string, b: string, c: string)
    requires Before(a, b) && Before(b, c)
    ensures Before(a, c)
  {
    if a != [] && a[0] == b[0] == c[0] {
      BeforeTransitive(a[1..], b[1..], c[1..]);
    }
  }

  // ---------------------------------------------------------------- sorting

  predicate BeforeAll(key: string, fs: seq<Field>)
  {
    forall i :: 0 <= i < |fs| ==> Before(key, fs[i].key)
  }

  predicate SortedByKey(fs: seq<Field>)
  {
    fs == [] || (BeforeAll(fs[0].key, fs[1..]) && SortedByKey(fs[1..]))
  }

  function Insert(f: Field, fs: seq<Field>): (r: seq<Field>)
  {
    if fs == [] || Before(f.key, fs[0].key) then [f] + fs
    else [fs[0]] + Insert(f, fs[1..])
  }

  /** `sort_keys=True`, applied to every object of the payload. */
  function Sorted(j: Json): Json
  {
    match j
    case Arr(items) => Arr(SortedItems(items))
    case Obj(fields) => Obj(SortedFields(fields))
    case _ => j
  }

  function SortedItems(xs: seq<Json>): seq<Json>
  {
    if xs == [] then [] else [Sorted(xs[0])] + SortedItems(xs[1..])
  }

  function SortedFields(fs: seq<Field>): seq<Field>
  {
    if fs == [] then [] else Insert(Field(fs[0].key, Sorted(fs[0].value)), SortedFields(fs[1..]))
  }

  /** All objects sorted by key, hence with distinct keys. */
  predicate IsSorted(j: Json)
  {
    match j
    case Arr(items) => ItemsAreSorted(items)
    case Obj(fields) => SortedByKey(fields) && FieldsAreSorted(fields)
    case _ => true
  }

  predicate ItemsAreSorted(xs: seq<Json>)
  {
    xs == [] || (IsSorted(xs[0]) && ItemsAreSorted(xs[1..]))
  }

  predicate FieldsAreSorted(fs: seq<Field>)
  {
    fs == [] || (IsSorted(fs[0].value) && FieldsAreSorted(fs[1..]))
  }

  lemma {:induction false} InsertKeys(f: Field, fs: seq<Field>, k: string)
    ensures HasKey(Insert(f, fs), k) <==> k == f.key || HasKey(fs, k)
  {
    var r := Insert(f, fs);
    HasKeyCons(r, k);
    if fs == [] || Before(f.key, fs[0].key) {
      assert r[1..] == fs;
    } else {
      assert r[1..] == Insert(f, fs[1..]);
      InsertKeys(f, fs[1..], k);
      HasKeyCons(fs, k);
    }
  }

  lemma InsertKeepsBefore(k: string, f: Field, fs: seq<Field>)
    requires Before(k, f.key) && BeforeAll(k, fs)
    ensures BeforeAll(k, Insert(f, fs))
  {
    var r := Insert(f, fs);
    forall i | 0 <= i < |r| ensures Before(k, r[i].key) {
      InsertKeys(f, fs, r[i].key);
      assert HasKey(r, r[i].key);
    }
  }

  lemma BeforeRest(f: Field, fs: seq<Field>)
    requires fs != [] && SortedByKey(fs) && Before(f.key, fs[0].key)
    ensures BeforeAll(f.key, fs)
  {
    forall i | 0 < i < |fs| ensures Before(f.key, fs[i].key) {
      assert fs[1..][i - 1] == fs[i];
      BeforeTransitive(f.key, fs[0].key, fs[i].key);
    }
  }

  lemma {:induction false} InsertSorts(f: Field, fs: seq<Field>)
    requires SortedByKey(fs) && FieldsAreSorted(fs) && IsSorted(f.value) && !HasKey(fs, f.key)
    ensures SortedByKey(Insert(f, fs)) && FieldsAreSorted(Insert(f, fs))
  {
    var r := Insert(f, fs);
    if fs == [] {
      assert r[1..] == fs;
    } else if Before(f.key, fs[0].key) {
      assert r[1..] == fs;
      BeforeRest(f, fs);
    } else {
      HasKeyCons(fs, f.key);
      InsertSorts(f, fs[1..]);
      assert r[1..] == Insert(f, fs[1..]);
      BeforeTotal(f.key, fs[0].key);
      InsertKeepsBefore(fs[0].key, f, fs[1..]);
    }
  }

  lemma SwapUpdates<K, V>(m: map<K, V>, k: K, v: V, l: K, w: V)
    requires k != l
    ensures m[k := v][l := w] == m[l := w][k := v]
  {
  }

  lemma {:induction false} InsertMeaning(f: Field, fs: seq<Field>)
    requires !HasKey(fs, f.key)
    ensures MeaningOfFields(Insert(f, fs)) == MeaningOfFields(fs)[f.key := Meaning(f.value)]
  {
    var r := Insert(f, fs);
    if fs == [] || Before(f.key, fs[0].key) {
      assert r[1..] == fs;
    } else {
      HasKeyCons(fs, f.key);
      assert r[1..] == Insert(f, fs[1..]);
      InsertMeaning(f, fs[1..]);
      SwapUpdates(MeaningOfFields(fs[1..]), f.key, Meaning(f.value), fs[0].key, Meaning(fs[0].value));
    }
  }

  lemma {:induction false} SortKeys(fs: seq<Field>, k: string)
    ensures HasKey(SortedFields(fs), k) <==> HasKey(fs, k)
  {
    if fs != [] {
      SortKeys(fs[1..], k);
      InsertKeys(Field(fs[0].key, Sorted(fs[0].value)), SortedFields(fs[1..]), k);
      HasKeyCons(fs, k);
    }
  }

  /** Sorting yields sorted objects and changes no meaning. */
  lemma {:induction false} SortCorrect(j: Json)
    requires WellFormed(j)
    ensures IsSorted(Sorted(j)) && Meaning(Sorted(j)) == Meaning(j)
    decreases j, 1
  {
    match j
    case Arr(items) => SortItemsCorrect(items);
    case Obj(fields) => SortFieldsCorrect(fields);
    case _ =>
  }

  lemma {:induction false} SortItemsCorrect(xs: seq<Json>)
    requires WellFormedItems(xs)
    ensures ItemsAreSorted(SortedItems(xs)) && MeaningOfItems(SortedItems(xs)) == MeaningOfItems(xs)
    decreases xs, 0
  {
    if xs != [] {
      SortCorrect(xs[0]);
      SortItemsCorrect(xs[1..]);
      assert SortedItems(xs)[1..] == SortedItems(xs[1..]);
    }
  }

  lemma {:induction false} SortFieldsCorrect(fs: seq<Field>)
    requires WellFormedFields(fs)
    ensures SortedByKey(SortedFields(fs)) && FieldsAreSorted(SortedFields(fs))
    ensures MeaningOfFields(SortedFields(fs)) == MeaningOfFields(fs)
    decreases fs, 0
  {
    if fs != [] {
      SortCorrect(fs[0].value);
      SortFieldsCorrect(fs[1..]);
      SortKeys(fs[1..], fs[0].key);
      InsertSorts(Field(fs[0].key, Sorted(fs[0].value)), SortedFields(fs[1..]));
      InsertMeaning(Field(fs[0].key, Sorted(fs[0].value)), SortedFields(fs[1..]));
    }
  }

  /** A sorted payload is the only sorted payload with its meaning. */
  lemma {:induction false} SortedUnique(a: Json, b: Json)
    requires IsSorted(a) && IsSorted(b) && Meaning(a) == Meaning(b)
    ensures a == b
    decreases a, 1
  {
    match a
    case Arr(items) => SortedItemsUnique(items, b.items);
    case Obj(fields) => SortedFieldsUnique(fields, b.fields);
    case _ =>
  }

  lemma {:induction false} SortedItemsUnique(xs: seq<Json>, ys: seq<Json>)
    requires ItemsAreSorted(xs) && ItemsAreSorted(ys) && MeaningOfItems(xs) == MeaningOfItems(ys)
    ensures xs == ys
    decreases xs, 0
  {
    if xs == [] || ys == [] {
    } else {
      assert MeaningOfItems(xs)[0] == Meaning(xs[0]) && MeaningOfItems(ys)[0] == Meaning(ys[0]);
      SortedUnique(xs[0], ys[0]);
      assert MeaningOfItems(xs)[1..] == MeaningOfItems(xs[1..]);
      assert MeaningOfItems(ys)[1..] == MeaningOfItems(ys[1..]);
      SortedItemsUnique(xs[1..], ys[1..]);
      assert xs == [xs[0]] + xs[1..] && ys == [ys[0]] + ys[1..];
    }
  }

  lemma FirstKeyLeast(fs: seq<Field>, k: string)
    requires fs != [] && SortedByKey(fs) && HasKey(fs, k)
    ensures k == fs[0].key || Before(fs[0].key, k)
  {
    HasKeyCons(fs, k);
  }

  lemma EmptyMeaning(fs: seq<Field>)
    ensures MeaningOfFields(fs) == map[] <==> fs == []
  {
    if fs != [] { assert fs[0].key in MeaningOfFields(fs); }
  }

  lemma DropAdded<K, V>(m: map<K, V>, k: K, v: V)
    requires k !in m
    ensures m[k := v] - {k} == m
  {
  }

  lemma FirstKeyOnce(fs: seq<Field>)
    requires fs != [] && SortedByKey(fs)
    ensures !HasKey(fs[1..], fs[0].key)
  {
    BeforeTotal(fs[0].key, fs[0].key);
  }

  lemma TailMeaning(fs: seq<Field>)
    requires fs != [] && SortedByKey(fs)
    ensures MeaningOfFields(fs[1..]) == MeaningOfFields(fs) - {fs[0].key}
  {
    FirstKeyOnce(fs);
    DropAdded(MeaningOfFields(fs[1..]), fs[0].key, Meaning(fs[0].value));
  }

  lemma SameFirstKey(fs: seq<Field>, gs: seq<Field>)
    requires fs != [] && gs != [] && SortedByKey(fs) && SortedByKey(gs)
    requires MeaningOfFields(fs).Keys == MeaningOfFields(gs).Keys
    ensures fs[0].key == gs[0].key
  {
    assert fs[0].key in MeaningOfFields(fs) && gs[0].key in MeaningOfFields(gs);
    FirstKeyLeast(fs, gs[0].key);
    FirstKeyLeast(gs, fs[0].key);
    BeforeTotal(fs[0].key, gs[0].key);
  }

  lemma {:induction false} SortedFieldsUnique(fs: seq<Field>, gs: seq<Field>)
    requires SortedByKey(fs) && FieldsAreSorted(fs) && SortedByKey(gs) && FieldsAreSorted(gs)
    requires MeaningOfFields(fs) == MeaningOfFields(gs)
    ensures fs == gs
    decreases fs, 0
  {
    if fs == [] || gs == [] {
      EmptyMeaning(fs);
      EmptyMeaning(gs);
    } else {
      SameFirstKey(fs, gs);
      TailMeaning(fs);
      TailMeaning(gs);
      SortedFieldsUnique(fs[1..], gs[1..]);
      assert Meaning(fs[0].value) == MeaningOfFields(fs)[fs[0].key];
      assert Meaning(gs[0].value) == MeaningOfFields(gs)[gs[0].key];
      SortedUnique(fs[0].value, gs[0].value);
      assert fs == [fs[0]] + fs[1..] && gs == [gs[0]] + gs[1..];
    }
  }

  // ---------------------------------------------------------------- writing

  function DigitChar(d: nat): (c: char)
    requires d < 16
  {
    if d < 10 then '0' + d as char else 'a' + (d - 10) as char
  }

  function NatText(n: nat): (s: string)
    ensures s != [] && (forall i :: 0 <= i < |s| ==> '0' <= s[i] <= '9')
  {
    if n < 10 then [DigitChar(n)] else NatText(n / 10) + [DigitChar(n % 10)]
  }

  function IntText(n: int): string
  {
    if n < 0 then "-" + NatText(-n) else NatText(n)
  }

  /** The escapes `json.dumps(..., ensure_ascii=False)` emits. */
  function Escape(c: char): string
  {
    if c == '\"' then "\\\""
    else if c == '\\' then "\\\\"
    else if c as int == 8 then "\\b"
    else if c as int == 12 then "\\f"
    else if c as int == 10 then "\\n"
    else if c as int == 13 then "\\r"
    else if c as int == 9 then "\\t"
    else if (c as int) < 32 then "\\u00" + [DigitChar(c as int / 16), DigitChar(c as int % 16)]
    else [c]
  }

  /** The escapes of section 7 of RFC 8259: seven short ones, and four hexadecimal digits for the other controls. */
  lemma EscapeTable(c: char)
    ensures Escape('\"') == ['\\', '\"'] && Escape('\\') == ['\\', '\\']
    ensures Escape(8 as char) == ['\\', 'b'] && Escape(9 as char) == ['\\', 't'] && Escape(10 as char) == ['\\', 'n']
    ensures Escape(12 as char) == ['\\', 'f'] && Escape(13 as char) == ['\\', 'r']
    ensures (c as int) < 32 && c as int !in {8, 9, 10, 12, 13} ==>
              Escape(c) == ['\\', 'u', '0', '0', "0123456789abcdef"[c as int / 16], "0123456789abcdef"[c as int % 16]]
    ensures c as int >= 32 && c != '\"' && c != '\\' ==> Escape(c) == [c]
  {
    if (c as int) < 32 {
      HexDigit(c as int / 16);
      HexDigit(c as int % 16);
    }
  }

  lemma HexDigit(d: nat)
    requires d < 16
    ensures DigitChar(d) == "0123456789abcdef"[d]
  {
  }

  function EscapeAll(s: string): string
  {
    if s == [] then [] else Escape(s[0]) + EscapeAll(s[1..])
  }

  function Quote(s: string): string
  {
    "\"" + EscapeAll(s) + "\""
  }

  /** `json.dumps` with separators `,` and `:`, fields in the order given. */
  function Write(j: Json): string
    decreases j, 1
  {
    match j
    case Null => "null"
    case Bool(b) => if b then "true" else "false"
    case Int(n) => IntText(n)
    case Str(s) => Quote(s)
    case Arr(items) => "[" + WriteItems(items) + "]"
    case Obj(fields) => "{" + WriteFields(fields) + "}"
  }

  function WriteItems(xs: seq<Json>): string
    decreases xs, 0
  {
    if xs == [] then ""
    else if |xs| == 1 then Write(xs[0])
    else Write(xs[0]) + "," + WriteItems(xs[1..])
  }

  function WriteField(f: Field): string
    decreases f, 2
  {
    Quote(f.key) + ":" + Write(f.value)
  }

  function WriteFields(fs: seq<Field>): string
    decreases fs, 0
  {
    if fs == [] then ""
    else if |fs| == 1 then WriteField(fs[0])
    else WriteField(fs[0]) + "," + WriteFields(fs[1..])
  }

  /** The text `canonical_payload_digest` hashes. */
  function Encode(j: Json): string
  {
    Write(Sorted(j))
  }

  // ---------------------------------------------------------------- reading

  datatype Parsed<T> = Got(value: T, rest: string) | Bad

  function DigitsThen(acc: nat, s: string): (r: Parsed<nat>)
    ensures r.Got? && |r.rest| <= |s|
    decreases |s|
  {
    if s != [] && IsDigit(s[0]) then DigitsThen(acc * 10 + (s[0] - '0') as int, s[1..])
    else Got(acc, s)
  }

  function HexValue(c: char): (d: int)
    ensures -1 <= d < 16
  {
    if '0' <= c <= '9' then (c - '0') as int
    else if 'a' <= c <= 'f' then (c - 'a') as int + 10
    else -1
  }

  /** One possibly escaped character. */
  function ReadChar(s: string): (r: Parsed<char>)
    ensures r.Got? ==> |r.rest| < |s|
  {
    if s == [] then Bad
    else if s[0] != '\\' then Got(s[0], s[1..])
    else if |s| < 2 then Bad
    else if s[1] == '\"' || s[1] == '\\' then Got(s[1], s[2..])
    else if s[1] == 'b' then Got(8 as char, s[2..])
    else if s[1] == 'f' then Got(12 as char, s[2..])
    else if s[1] == 'n' then Got(10 as char, s[2..])
    else if s[1] == 'r' then Got(13 as char, s[2..])
    else if s[1] == 't' then Got(9 as char, s[2..])
    else if s[1] == 'u' && |s| >= 6 && s[2] == '0' && s[3] == '0'
            && HexValue(s[4]) >= 0 && HexValue(s[5]) >= 0 then
      Got((16 * HexValue(s[4]) + HexValue(s[5])) as char, s[6..])
    else Bad
  }

  /** The rest of a string whose opening quote has been read. */
  function ReadText(s: string): (r: Parsed<string>)
    ensures r.Got? ==> |r.rest| < |s|
    decreases |s|
  {
    if s == [] then Bad
    else if s[0] == '\"' then Got("", s[1..])
    else
      match ReadChar(s)
      case Bad => Bad
      case Got(c, rest) =>
        match ReadText(rest)
        case Bad => Bad
        case Got(text, rest') => Got([c] + text, rest')
  }

  function Read(s: string): (r: Parsed<Json>)
    ensures r.Got? ==> |r.rest| < |s|
    decreases |s|, 1
  {
    if s == [] then Bad
    else if s[0] == 'n' then
      if |s| >= 4 && s[1] == 'u' && s[2] == 'l' && s[3] == 'l' then Got(Null, s[4..]) else Bad
    else if s[0] == 't' then
      if |s| >= 4 && s[1] == 'r' && s[2] == 'u' && s[3] == 'e' then Got(Bool(true), s[4..]) else Bad
    else if s[0] == 'f' then
      if |s| >= 5 && s[1] == 'a' && s[2] == 'l' && s[3] == 's' && s[4] == 'e' then Got(Bool(false), s[5..]) else Bad
    else if s[0] == '\"' then
      match ReadText(s[1..]) { case Bad => Bad case Got(text, rest) => Got(Str(text), rest) }
    else if s[0] == '-' then
      if |s| > 1 && IsDigit(s[1]) then var d := DigitsThen(0, s[1..]); Got(Int(0 - d.value), d.rest) else Bad
    else if IsDigit(s[0]) then
      var d := DigitsThen((s[0] - '0') as int, s[1..]); Got(Int(d.value), d.rest)
    else if s[0] == '[' then
      if |s| > 1 && s[1] == ']' then Got(Arr([]), s[2..])
      else match ReadItems(s[1..]) { case Bad => Bad case Got(xs, rest) => Got(Arr(xs), rest) }
    else if s[0] == '{' then
      if |s| > 1 && s[1] == '}' then Got(Obj([]), s[2..])
      else match ReadFields(s[1..]) { case Bad => Bad case Got(fs, rest) => Got(Obj(fs), rest) }
    else Bad
  }

  function ReadItems(s: string): (r: Parsed<seq<Json>>)
    ensures r.Got? ==> |r.rest| < |s|
    decreases |s|, 2
  {
    match Read(s)
    case Bad => Bad
    case Got(x, rest) =>
      if rest != [] && rest[0] == ']' then Got([x], rest[1..])
      else if rest != [] && rest[0] == ',' then
        match ReadItems(rest[1..]) { case Bad => Bad case Got(xs, rest') => Got([x] + xs, rest') }
      else Bad
  }

  function ReadField(s: string): (r: Parsed<Field>)
    ensures r.Got? ==> |r.rest| < |s|
    decreases |s|, 2
  {
    if s == [] || s[0] != '\"' then Bad
    else
      match ReadText(s[1..])
      case Bad => Bad
      case Got(key, afterKey) =>
        if afterKey == [] || afterKey[0] != ':' then Bad
        else match Read(afterKey[1..]) { case Bad => Bad case Got(x, rest) => Got(Field(key, x), rest) }
  }

  function ReadFields(s: string): (r: Parsed<seq<Field>>)
    ensures r.Got? ==> |r.rest| < |s|
    decreases |s|, 3
  {
    match ReadField(s)
    case Bad => Bad
    case Got(f, rest) =>
      if rest != [] && rest[0] == '}' then Got([f], rest[1..])
      else if rest != [] && rest[0] == ',' then
        match ReadFields(rest[1..]) { case Bad => Bad case Got(fs, rest') => Got([f] + fs, rest') }
      else Bad
  }

  // ---------------------------------------------------------------- round trip

  lemma Cons(c: char, s: string)
    ensures ([c] + s)[0] == c && ([c] + s)[1..] == s
  {
  }

  lemma ReadEscape(c: char, rest: string)
    ensures ReadChar(Escape(c) + rest) == Got(c, rest)
    ensures Escape(c) != [] && Escape(c)[0] != '\"'
  {
    var s := Escape(c) + rest;
    assert s[|Escape(c)|..] == rest;
    if (c as int) < 32 && c as int != 8 && c as int != 12 && c as int != 10 && c as int != 13 && c as int != 9 {
      assert HexValue(DigitChar(c as int / 16)) == c as int / 16;
      assert HexValue(DigitChar(c as int % 16)) == c as int % 16;
    }
  }

  lemma {:induction false} ReadQuoted(s: string, rest: string)
    ensures ReadText(EscapeAll(s) + "\"" + rest) == Got(s, rest)
  {
    var all := EscapeAll(s) + "\"" + rest;
    if s == [] {
      assert all == "\"" + rest;
    } else {
      var more := EscapeAll(s[1..]) + "\"" + rest;
      assert all == Escape(s[0]) + more;
      ReadEscape(s[0], more);
      ReadQuoted(s[1..], rest);
      assert [s[0]] + s[1..] == s;
    }
  }

  /** `acc` followed by the decimal digits of `n`. */
  function Shifted(acc: nat, n: nat): nat
  {
    if n < 10 then acc * 10 + n else Shifted(acc, n / 10) * 10 + n % 10
  }

  lemma {:induction false} ShiftedFromZero(n: nat)
    ensures Shifted(0, n) == n
  {
    if n >= 10 { ShiftedFromZero(n / 10); }
  }

  predicate NoDigitFirst(s: string) { s == [] || !IsDigit(s[0]) }

  lemma {:induction false} ReadDigits(acc: nat, n: nat, rest: string)
    ensures DigitsThen(acc, NatText(n) + rest) == DigitsThen(Shifted(acc, n), rest)
  {
    if n < 10 {
      assert (NatText(n) + rest)[1..] == rest;
    } else {
      var last := [DigitChar(n % 10)];
      ReadDigits(acc, n / 10, last + rest);
      assert NatText(n) + rest == NatText(n / 10) + (last + rest);
      assert (last + rest)[1..] == rest;
    }
  }

  lemma ReadNat(n: nat, rest: string)
    requires NoDigitFirst(rest)
    ensures DigitsThen(0, NatText(n) + rest) == Got(n, rest)
  {
    ReadDigits(0, n, rest);
    ShiftedFromZero(n);
  }

  lemma ReadAnyInt(s: string, n: nat, rest: string)
    requires s != [] && IsDigit(s[0]) && DigitsThen(0, s) == Got(n, rest)
    ensures Read(s) == Got(Int(n), rest) && Read(['-'] + s) == Got(Int(0 - n), rest)
  {
    Cons('-', s);
    assert DigitsThen(0, s) == DigitsThen((s[0] - '0') as int, s[1..]);
  }

  lemma ReadInt(n: int, rest: string)
    requires NoDigitFirst(rest)
    ensures Read(IntText(n) + rest) == Got(Int(n), rest)
  {
    var m := if n < 0 then -n else n;
    var s := NatText(m) + rest;
    ReadNat(m, rest);
    assert s[0] == NatText(m)[0];
    ReadAnyInt(s, m, rest);
    assert n < 0 ==> IntText(n) + rest == ['-'] + s;
  }

  lemma ReadWord(j: Json, rest: string)
    requires j.Null? || j.Bool?
    ensures Read(Write(j) + rest) == Got(j, rest)
  {
    var s := Write(j) + rest;
    assert s[|Write(j)|..] == rest;
  }

  lemma ReadAfterQuote(s: string, t: string, rest: string)
    requires ReadText(s) == Got(t, rest)
    ensures Read(['\"'] + s) == Got(Str(t), rest)
  {
    Cons('\"', s);
  }

  lemma ReadStr(t: string, rest: string)
    ensures Read(Quote(t) + rest) == Got(Str(t), rest)
  {
    var body := EscapeAll(t) + "\"" + rest;
    ReadQuoted(t, rest);
    ReadAfterQuote(body, t, rest);
    assert Quote(t) + rest == ['\"'] + body;
  }

  /** Reading what was written gives it back, whatever follows; only after a number no digit may follow. */
  lemma {:induction false} ReadWrite(j: Json, rest: string)
    requires j.Int? ==> NoDigitFirst(rest)
    ensures Read(Write(j) + rest) == Got(j, rest)
    decreases j, 1
  {
    match j
    case Null => ReadWord(j, rest);
    case Bool(_) => ReadWord(j, rest);
    case Int(n) => ReadInt(n, rest);
    case Str(t) => ReadStr(t, rest);
    case Arr(items) => ReadWriteArr(items, rest);
    case Obj(fields) => ReadWriteObj(fields, rest);
  }

  lemma {:induction false} ReadWriteArr(items: seq<Json>, rest: string)
    ensures Read(Write(Arr(items)) + rest) == Got(Arr(items), rest)
    decreases items, 2
  {
    if items == [] {
      assert Write(Arr(items)) + rest == "[]" + rest;
    } else {
      var body := WriteItems(items) + "]" + rest;
      assert Write(Arr(items)) + rest == ['['] + body;
      Cons('[', body);
      WriteStarts(items[0]);
      ReadWriteItems(items, rest);
    }
  }

  lemma {:induction false} ReadWriteObj(fields: seq<Field>, rest: string)
    ensures Read(Write(Obj(fields)) + rest) == Got(Obj(fields), rest)
    decreases fields, 2
  {
    if fields == [] {
      assert Write(Obj(fields)) + rest == "{}" + rest;
    } else {
      var body := WriteFields(fields) + "}" + rest;
      assert Write(Obj(fields)) + rest == ['{'] + body;
      Cons('{', body);
      assert body[0] == WriteField(fields[0])[0] == '\"';
      ReadWriteFields(fields, rest);
    }
  }

  lemma WriteStarts(j: Json)
    ensures Write(j) != [] && Write(j)[0] != ']'
  {
    if j.Int? {
      assert IsDigit(NatText(if j.number < 0 then -j.number else j.number)[0]);
    }
  }

  lemma ReadLastItem(t: string, x: Json, rest: string)
    requires Read(t + ("]" + rest)) == Got(x, "]" + rest)
    ensures ReadItems(t + ("]" + rest)) == Got([x], rest)
  {
    Cons(']', rest);
  }

  lemma ReadNextItem(t: string, x: Json, more: string, xs: seq<Json>, rest: string)
    requires Read(t + ("," + more)) == Got(x, "," + more) && ReadItems(more) == Got(xs, rest)
    ensures ReadItems(t + ("," + more)) == Got([x] + xs, rest)
  {
    Cons(',', more);
  }

  /** `close` is the bracket after the last element. */
  lemma Regroup(a: string, b: string, close: string, rest: string)
    ensures a + "," + b + close + rest == a + ("," + (b + close + rest))
    ensures a + close + rest == a + (close + rest)
  {
  }

  lemma {:induction false} ReadWriteItems(xs: seq<Json>, rest: string)
    requires xs != []
    ensures ReadItems(WriteItems(xs) + "]" + rest) == Got(xs, rest)
    decreases xs, 0
  {
    var t := Write(xs[0]);
    Regroup(t, WriteItems(xs[1..]), "]", rest);
    if |xs| == 1 {
      ReadWrite(xs[0], "]" + rest);
      ReadLastItem(t, xs[0], rest);
      assert WriteItems(xs) == t && xs == [xs[0]];
    } else {
      var more := WriteItems(xs[1..]) + "]" + rest;
      ReadWrite(xs[0], "," + more);
      ReadWriteItems(xs[1..], rest);
      ReadNextItem(t, xs[0], more, xs[1..], rest);
      assert WriteItems(xs) == t + "," + WriteItems(xs[1..]);
      assert xs == [xs[0]] + xs[1..];
    }
  }

  lemma FieldText(key: string, value: string, more: string)
    ensures "\"" + key + "\"" + ":" + value + more == ['\"'] + (key + "\"" + ([':'] + (value + more)))
  {
  }

  lemma ReadOneField(f: Field, more: string)
    requires Read(Write(f.value) + more) == Got(f.value, more)
    ensures ReadField(WriteField(f) + more) == Got(f, more)
  {
    var afterKey := [':'] + (Write(f.value) + more);
    FieldText(EscapeAll(f.key), Write(f.value), more);
    Cons('\"', EscapeAll(f.key) + "\"" + afterKey);
    Cons(':', Write(f.value) + more);
    ReadQuoted(f.key, afterKey);
  }

  lemma ReadLastField(t: string, f: Field, rest: string)
    requires ReadField(t + ("}" + rest)) == Got(f, "}" + rest)
    ensures ReadFields(t + ("}" + rest)) == Got([f], rest)
  {
    Cons('}', rest);
  }

  lemma ReadNextField(t: string, f: Field, more: string, fs: seq<Field>, rest: string)
    requires ReadField(t + ("," + more)) == Got(f, "," + more) && ReadFields(more) == Got(fs, rest)
    ensures ReadFields(t + ("," + more)) == Got([f] + fs, rest)
  {
    Cons(',', more);
  }

  lemma ReadOnlyField(fs: seq<Field>, rest: string)
    requires |fs| == 1 && ReadField(WriteField(fs[0]) + ("}" + rest)) == Got(fs[0], "}" + rest)
    ensures ReadFields(WriteFields(fs) + "}" + rest) == Got(fs, rest)
  {
    var t := WriteField(fs[0]);
    Regroup(t, "", "}", rest);
    ReadLastField(t, fs[0], rest);
    assert WriteFields(fs) == t && fs == [fs[0]];
  }

  lemma ReadFirstField(fs: seq<Field>, more: string, rest: string)
    requires |fs| > 1 && more == WriteFields(fs[1..]) + "}" + rest
    requires ReadField(WriteField(fs[0]) + ("," + more)) == Got(fs[0], "," + more)
    requires ReadFields(more) == Got(fs[1..], rest)
    ensures ReadFields(WriteFields(fs) + "}" + rest) == Got(fs, rest)
  {
    var t := WriteField(fs[0]);
    Regroup(t, WriteFields(fs[1..]), "}", rest);
    ReadNextField(t, fs[0], more, fs[1..], rest);
    assert WriteFields(fs) == t + "," + WriteFields(fs[1..]);
    assert fs == [fs[0]] + fs[1..];
  }

  lemma {:induction false} ReadWriteFields(fs: seq<Field>, rest: string)
    requires fs != []
    ensures ReadFields(WriteFields(fs) + "}" + rest) == Got(fs, rest)
    decreases fs, 0
  {
    if |fs| == 1 {
      ReadWrite(fs[0].value, "}" + rest);
      ReadOneField(fs[0], "}" + rest);
      ReadOnlyField(fs, rest);
    } else {
      var more := WriteFields(fs[1..]) + "}" + rest;
      ReadWrite(fs[0].value, "," + more);
      ReadOneField(fs[0], "," + more);
      ReadWriteFields(fs[1..], rest);
      ReadFirstField(fs, more, rest);
    }
  }

  /** The parser undoes the canonical encoding: it gives the payload with its keys sorted, of the same meaning. */
  lemma DecodeEncode(j: Json)
    requires WellFormed(j)
    ensures Read(Encode(j)) == Got(Sorted(j), "") && Meaning(Sorted(j)) == Meaning(j)
  {
    ReadWrite(Sorted(j), "");
    assert Write(Sorted(j)) + "" == Encode(j);
    SortCorrect(j);
  }

  /** Two payloads have the same canonical text exactly when they mean the same. */
  lemma EncodeInjective(a: Json, b: Json)
    requires WellFormed(a) && WellFormed(b)
    ensures Encode(a) == Encode(b) <==> Meaning(a) == Meaning(b)
  {
    SortCorrect(a);
    SortCorrect(b);
    DecodeEncode(a);
    DecodeEncode(b);
    if Meaning(a) == Meaning(b) { SortedUnique(Sorted(a), Sorted(b)); }
  }

  // ---------------------------------------------------------------- digests

  /** SHA-256 of UTF-8 text, taken as injective. */
  datatype Digest = Sha256(preimage: string)

  const MAX_CONFIRMATION_PAYLOAD_BYTES: nat := 16384

  /** Bytes of the UTF-8 encoding. */
  function Utf8Length(s: string): nat
  {
    if s == [] then 0
    else
      var c := s[0] as int;
      (if c < 0x80 then 1 else if c < 0x800 then 2 else if c < 0x1_0000 then 3 else 4) + Utf8Length(s[1..])
  }

  /** The bytes of one character, by section 3 of RFC 3629. */
  function Utf8(c: char): (bytes: seq<int>)
    ensures forall i :: 0 <= i < |bytes| ==> 0 <= bytes[i] < 256
  {
    var n := c as int;
    if n < 0x80 then [n]
    else if n < 0x800 then [0xC0 + n / 64, 0x80 + n % 64]
    else if n < 0x1_0000 then [0xE0 + n / 4096, 0x80 + n / 64 % 64, 0x80 + n % 64]
    else [0xF0 + n / 262144, 0x80 + n / 4096 % 64, 0x80 + n / 64 % 64, 0x80 + n % 64]
  }

  function Utf8Text(s: string): seq<int>
  {
    if s == [] then [] else Utf8(s[0]) + Utf8Text(s[1..])
  }

  /** How many bytes a first byte announces. */
  function Announced(byte: int): (n: nat)
    ensures 1 <= n <= 4
  {
    if byte < 0xC0 then 1 else if byte < 0xE0 then 2 else if byte < 0xF0 then 3 else 4
  }

  /** The code point of the first character. */
  function CodePoint(bytes: seq<int>): int
    requires bytes != [] && Announced(bytes[0]) <= |bytes|
  {
    match Announced(bytes[0])
    case 1 => bytes[0]
    case 2 => (bytes[0] - 0xC0) * 64 + bytes[1] - 0x80
    case 3 => ((bytes[0] - 0xE0) * 64 + bytes[1] - 0x80) * 64 + bytes[2] - 0x80
    case _ => (((bytes[0] - 0xF0) * 64 + bytes[1] - 0x80) * 64 + bytes[2] - 0x80) * 64 + bytes[3] - 0x80
  }

  function CodePoints(bytes: seq<int>): seq<int>
  {
    if bytes == [] || Announced(bytes[0]) > |bytes| then []
    else [CodePoint(bytes)] + CodePoints(bytes[Announced(bytes[0])..])
  }

  lemma FirstCodePoint(c: char, more: seq<int>)
    ensures var bytes := Utf8(c) + more;
            Announced(bytes[0]) == |Utf8(c)| && CodePoint(bytes) == c as int && bytes[|Utf8(c)|..] == more
  {
    var n := c as int;
    assert n / 4096 == n / 64 / 64 && n / 262144 == n / 64 / 64 / 64;
  }

  /** The bytes of a text give its characters back, and `Utf8Length` is their number. */
  lemma {:induction false} Utf8Decodes(s: string)
    ensures Utf8Length(s) == |Utf8Text(s)|
    ensures var points := CodePoints(Utf8Text(s));
            |points| == |s| && forall i :: 0 <= i < |s| ==> points[i] == s[i] as int
  {
    if s != [] {
      Utf8Decodes(s[1..]);
      FirstCodePoint(s[0], Utf8Text(s[1..]));
      assert CodePoints(Utf8Text(s)) == [s[0] as int] + CodePoints(Utf8Text(s[1..]));
    }
  }

  /** One byte for a character below 128, and two to four for any other. */
  lemma {:induction false} Utf8Sizes(s: string)
    ensures |s| <= Utf8Length(s) <= 4 * |s|
    ensures Utf8Length(s) == |s| <==> forall i :: 0 <= i < |s| ==> (s[i] as int) < 128
  {
    if s != [] {
      Utf8Sizes(s[1..]);
      assert forall i :: 1 <= i < |s| ==> s[i] == s[1..][i - 1];
      assert (forall i :: 0 <= i < |s| ==> (s[i] as int) < 128) <==>
               (s[0] as int) < 128 && forall i :: 0 <= i < |s[1..]| ==> (s[1..][i] as int) < 128;
    }
  }

  datatype DigestResult = Digested(digest: Digest) | TooLarge

  function PayloadDigest(payload: Payload): DigestResult
  {
    var encoded := Encode(payload);
    if Utf8Length(encoded) > MAX_CONFIRMATION_PAYLOAD_BYTES then TooLarge else Digested(Sha256(encoded))
  }

  /** A payload is refused exactly if its canonical text takes more than 16 KiB in UTF-8, and otherwise that text is
      what is hashed. */
  lemma DigestOfText(payload: Payload)
    ensures PayloadDigest(payload).TooLarge? <==> |Utf8Text(Encode(payload))| > 16 * 1024
    ensures PayloadDigest(payload).Digested? ==> PayloadDigest(payload).digest == Sha256(Encode(payload))
  {
    Utf8Decodes(Encode(payload));
  }

  lemma MoreItems(x: Json, xs: seq<Json>)
    requires xs != []
    ensures WriteItems([x] + xs) == Write(x) + "," + WriteItems(xs)
  {
    assert ([x] + xs)[1..] == xs;
  }

  lemma MoreFields(f: Field, fs: seq<Field>)
    requires fs != []
    ensures WriteFields([f] + fs) == WriteField(f) + "," + WriteFields(fs)
  {
    assert ([f] + fs)[1..] == fs;
  }

  lemma QuoteOne(c: char)
    requires c as int >= 32 && c != '\"' && c != '\\'
    ensures Quote([c]) == ['\"', c, '\"']
  {
    assert [c][1..] == [];
    assert EscapeAll([c]) == [c];
  }

  lemma SampleItems()
    ensures WriteItems([Int(-10), Bool(true), Null]) == "-10,true,null"
  {
    assert NatText(1) == "1";
    assert NatText(10) == "1" + "0";
    assert Write(Int(-10)) == "-10";
    MoreItems(Bool(true), [Null]);
    MoreItems(Int(-10), [Bool(true), Null]);
    assert [Int(-10)] + [Bool(true), Null] == [Int(-10), Bool(true), Null];
    assert [Bool(true)] + [Null] == [Bool(true), Null];
  }

  lemma SampleSorts(a: Field, b: Field)
    requires a.key == "a" && b.key == "b"
    ensures SortedFields([b, a]) == [Field("a", Sorted(a.value)), Field("b", Sorted(b.value))]
  {
    assert [b, a][1..] == [a] && [a][1..] == [];
    var sa, sb := Field("a", Sorted(a.value)), Field("b", Sorted(b.value));
    assert SortedFields([a]) == [sa] && [sa][1..] == [];
    assert !Before("b", "a");
    assert Insert(sb, [sa]) == [sa] + Insert(sb, []);
  }

  lemma SampleSorted(xs: seq<Json>)
    requires xs == [Int(-10), Bool(true), Null]
    ensures SortedItems(xs) == xs
  {
    assert xs[1..] == [Bool(true), Null] && xs[1..][1..] == [Null] && [Null][1..] == [];
    assert SortedItems([Null]) == [Null];
    assert SortedItems([Bool(true), Null]) == [Bool(true), Null];
  }

  lemma SampleTexts(a: Field, b: Field)
    requires a == Field("a", Str("x")) && b == Field("b", Arr([Int(-10), Bool(true), Null]))
    ensures WriteField(a) == "\"a\":\"x\"" && WriteField(b) == "\"b\":[-10,true,null]"
  {
    QuoteOne('a');
    QuoteOne('b');
    QuoteOne('x');
    SampleItems();
    assert Write(a.value) == ['\"', 'x', '\"'];
    assert Write(b.value) == "[" + "-10,true,null" + "]";
  }

  /** A sample of the compact text, with the keys in order. */
  lemma CanonicalSample()
    ensures Encode(Obj([Field("b", Arr([Int(-10), Bool(true), Null])), Field("a", Str("x"))]))
         == "{" + ("\"a\":\"x\"" + "," + "\"b\":[-10,true,null]") + "}"
  {
    var a, b := Field("a", Str("x")), Field("b", Arr([Int(-10), Bool(true), Null]));
    SampleSorted(b.value.items);
    SampleSorts(a, b);
    assert Sorted(a.value) == a.value && Sorted(b.value) == b.value;
    TwoFields(a, b);
    SampleTexts(a, b);
  }

  lemma TwoFields(a: Field, b: Field)
    requires SortedFields([b, a]) == [a, b]
    ensures Encode(Obj([b, a])) == "{" + (WriteField(a) + "," + WriteField(b)) + "}"
  {
    MoreFields(a, [b]);
    assert [a] + [b] == [a, b];
  }

  /** Equal digests exactly for equal payloads, whatever the insertion order of their keys. */
  lemma DigestBindsPayload(a: Payload, b: Payload)
    requires PayloadDigest(a).Digested? || PayloadDigest(b).Digested?
    ensures PayloadDigest(a) == PayloadDigest(b) <==> Meaning(a) == Meaning(b)
  {
    EncodeInjective(a, b);
  }
}
