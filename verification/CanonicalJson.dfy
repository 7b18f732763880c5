/** Canonical JSON text as the audit chain hashes it (RFC 8259, sections 4 to 7): keys
    sorted at every level, no white space, only the characters that must be escaped
    escaped.  The text determines the value it was printed from. */
module CanonicalJson {
  import opened Basics
  import opened SortedKeys
  import opened TextLines

  // ---------- values ----------

  /** The digits and names a float is printed with.  A float is an opaque token: what
      matters is that its text is not the text of an integer. */
  predicate IsFloatToken(t: string) {
    && t != []
    && (IsDigit(t[0]) || t[0] in "-NI")
    && (forall i :: 0 <= i < |t| ==> t[i] !in ",]}")
    && (exists i :: 0 <= i < |t| && !IsDigit(t[i]) && t[i] != '-')
  }

  predicate IsDigit(c: char) { '0' <= c <= '9' }

  lemma ZeroIsFloat()
    ensures IsFloatToken("0.0")
  {
    assert "0.0"[1] == '.';
  }

  type FloatToken = t: string | IsFloatToken(t) ghost witness (ZeroIsFloat(); "0.0")

  datatype Json =
    | JNull
    | JBool(b: bool)
    | JInt(n: int)
    | JFloat(token: FloatToken)
    | JString(s: string)
    | JArray(items: seq<Json>)
    | JObject(fields: map<string, Json>)

  // ---------- strings ----------

  function HexDigit(n: nat): char
    requires n < 16
  {
    "0123456789abcdef"[n]
  }

  function EscapeChar(c: char): string {
    if c == '\"' then ['\\', '\"']
    else if c == '\\' then ['\\', '\\']
    else if c as int >= 0x20 then [c]
    else if c as int == 8 then ['\\', 'b']
    else if c as int == 12 then ['\\', 'f']
    else if c == '\n' then ['\\', 'n']
    else if c == '\r' then ['\\', 'r']
    else if c == '\t' then ['\\', 't']
    else ['\\', 'u', '0', '0', HexDigit(c as int / 16), HexDigit(c as int % 16)]
  }

  /** A string from its first character to its closing quote. */
  function QuoteTail(s: string): string {
    if s == [] then ['\"'] else EscapeChar(s[0]) + QuoteTail(s[1..])
  }

  function Quote(s: string): string {
    ['\"'] + QuoteTail(s)
  }

  // ---------- numbers ----------

  function Digits(n: nat): (r: string)
    ensures r != [] && forall i :: 0 <= i < |r| ==> IsDigit(r[i])
  {
    var d := ['0' + (n % 10) as char];
    if n < 10 then d else Digits(n / 10) + d
  }

  function IntText(n: int): string {
    if n < 0 then ['-'] + Digits(-n) else Digits(n)
  }

  // ---------- the printer ----------

  function Print(j: Json): string
    decreases j, 1
  {
    match j
    case JNull => "null"
    case JBool(b) => if b then "true" else "false"
    case JInt(n) => IntText(n)
    case JFloat(token) => token
    case JString(s) => Quote(s)
    case JArray(items) => ['['] + PrintItems(j, 0)
    case JObject(fields) => ['{'] + PrintFields(j, Sorted(fields.Keys), true)
  }

  /** The items from index `i` to the closing bracket. */
  function PrintItems(j: Json, i: nat): string
    requires j.JArray? && i <= |j.items|
    decreases j, 0, |j.items| - i
  {
    if i == |j.items| then [']']
    else (if i == 0 then [] else [',']) + Print(j.items[i]) + PrintItems(j, i + 1)
  }

  /** The members under `keys`, in that order, to the closing brace. */
  function PrintFields(j: Json, keys: seq<string>, first: bool): string
    requires j.JObject? && forall k :: k in keys ==> k in j.fields
    decreases j, 0, |keys|
  {
    if keys == [] then ['}']
    else
      (if first then [] else [',']) + Quote(keys[0]) + [':'] + Print(j.fields[keys[0]])
      + PrintFields(j, keys[1..], false)
  }

  // ---------- a reader for compact documents ----------

  /** What can follow a value inside a document. */
  predicate Ends(s: string) {
    s == [] || s[0] in ",]}"
  }

  function HexValue(c: char): Option<nat> {
    if '0' <= c <= '9' then Some(c as int - '0' as int)
    else if 'a' <= c <= 'f' then Some(c as int - 'a' as int + 10)
    else if 'A' <= c <= 'F' then Some(c as int - 'A' as int + 10)
    else None
  }

  /** The character a two-character escape stands for. */
  function ShortEscape(c: char): Option<char> {
    if c in "\"\\/" then Some(c)
    else if c == 'b' then Some(8 as char)
    else if c == 'f' then Some(12 as char)
    else if c == 'n' then Some('\n')
    else if c == 'r' then Some('\r')
    else if c == 't' then Some('\t')
    else None
  }

  /** One character of a string literal, escaped or not, and the rest of the text. */
  function ReadChar(t: string): (r: Option<(char, string)>)
    ensures r.Some? ==> |r.value.1| < |t|
  {
    if t == [] || t[0] == '\"' || (t[0] as int) < 0x20 then None
    else if t[0] != '\\' then Some((t[0], t[1..]))
    else if |t| < 2 then None
    else if t[1] == 'u' then
      if |t| < 6 then None
      else
        var a, b, c, d := HexValue(t[2]), HexValue(t[3]), HexValue(t[4]), HexValue(t[5]);
        if a.None? || b.None? || c.None? || d.None? then None
        else
          var code := ((a.value * 16 + b.value) * 16 + c.value) * 16 + d.value;
          if 0xD800 <= code < 0xE000 then None else Some((code as char, t[6..]))
    else
      var c := ShortEscape(t[1]);
      if c.None? then None else Some((c.value, t[2..]))
  }

  /** A string literal after its opening quote. */
  function ReadString(t: string): (r: Option<(string, string)>)
    ensures r.Some? ==> |r.value.1| < |t|
    decreases |t|
  {
    if t != [] && t[0] == '\"' then Some(([], t[1..]))
    else
      var c := ReadChar(t);
      if c.None? then None
      else
        var more := ReadString(c.value.1);
        if more.None? then None else Some(([c.value.0] + more.value.0, more.value.1))
  }

  /** The text up to the first delimiter. */
  function Token(u: string): (t: string)
    ensures |t| <= |u|
  {
    if Ends(u) then [] else [u[0]] + Token(u[1..])
  }

  function DigitsValue(t: string): nat
    requires forall c :: c in t ==> IsDigit(c)
  {
    if t == [] then 0
    else
      assert IsDigit(t[|t| - 1]);
      DigitsValue(t[..|t| - 1]) * 10 + (t[|t| - 1] as int - '0' as int)
  }

  predicate AllDigits(t: string) {
    t != [] && forall c :: c in t ==> IsDigit(c)
  }

  function ReadNumber(t: string): Option<Json> {
    if AllDigits(t) then Some(JInt(DigitsValue(t)))
    else if t != [] && t[0] == '-' && AllDigits(t[1..]) then Some(JInt(0 - DigitsValue(t[1..])))
    else if IsFloatToken(t) then Some(JFloat(t))
    else None
  }

  /** A value at the start of a text, and the rest. */
  function ReadValue(t: string): (r: Option<(Json, string)>)
    ensures r.Some? ==> |r.value.1| < |t|
    decreases |t|, 1
  {
    if t == [] then None
    else if t[0] == '\"' then
      var s := ReadString(t[1..]);
      if s.None? then None else Some((JString(s.value.0), s.value.1))
    else if t[0] == '[' then
      if |t| > 1 && t[1] == ']' then Some((JArray([]), t[2..]))
      else
        var items := ReadItems(t[1..]);
        if items.None? then None else Some((JArray(items.value.0), items.value.1))
    else if t[0] == '{' then
      if |t| > 1 && t[1] == '}' then Some((JObject(map[]), t[2..]))
      else
        var fields := ReadFields(t[1..]);
        if fields.None? then None else Some((JObject(fields.value.0), fields.value.1))
    else
      var token := Token(t);
      var rest := t[|token|..];
      if token == [] then None
      else if token == "null" then Some((JNull, rest))
      else if token == "true" then Some((JBool(true), rest))
      else if token == "false" then Some((JBool(false), rest))
      else
        var n := ReadNumber(token);
        if n.None? then None else Some((n.value, rest))
  }

  /** The items of a non-empty array, to and including the closing bracket. */
  function ReadItems(t: string): (r: Option<(seq<Json>, string)>)
    ensures r.Some? ==> |r.value.1| < |t|
    decreases |t|, 2
  {
    var first := ReadValue(t);
    if first.None? || first.value.1 == [] then None
    else
      var u := first.value.1;
      if u[0] == ']' then Some(([first.value.0], u[1..]))
      else if u[0] == ',' then
        var more := ReadItems(u[1..]);
        if more.None? then None else Some(([first.value.0] + more.value.0, more.value.1))
      else None
  }

  /** The members of a non-empty object, to and including the closing brace. */
  function ReadFields(t: string): (r: Option<(map<string, Json>, string)>)
    ensures r.Some? ==> |r.value.1| < |t|
    decreases |t|, 2
  {
    if t == [] || t[0] != '\"' then None
    else
      var key := ReadString(t[1..]);
      if key.None? || key.value.1 == [] || key.value.1[0] != ':' then None
      else
        var first := ReadValue(key.value.1[1..]);
        if first.None? || first.value.1 == [] then None
        else
          var u := first.value.1;
          if u[0] == '}' then Some((map[key.value.0 := first.value.0], u[1..]))
          else if u[0] == ',' then
            var more := ReadFields(u[1..]);
            if more.None? then None
            else Some((map[key.value.0 := first.value.0] + more.value.0, more.value.1))
          else None
  }

  // ---------- reading back what was printed ----------

  lemma Regroup(a: string, b: string, c: string)
    ensures (a + b) + c == a + (b + c)
  {
  }

  lemma DropSame(p: string, u: string, v: string)
    requires p + u == p + v
    ensures u == v
  {
    assert u == (p + u)[|p|..] && v == (p + v)[|p|..];
  }

  lemma CharComesBack(c: char, t: string)
    ensures ReadChar(EscapeChar(c) + t) == Some((c, t))
    ensures (EscapeChar(c) + t)[0] != '\"'
  {
    var u := EscapeChar(c) + t;
    assert u[|EscapeChar(c)|..] == t;
    if |EscapeChar(c)| == 6 { ControlComesBack(c, t); }
  }

  lemma ControlComesBack(c: char, t: string)
    requires |EscapeChar(c)| == 6
    ensures ReadChar(EscapeChar(c) + t) == Some((c, t))
  {
    var u, n := EscapeChar(c) + t, c as int;
    assert u[6..] == t;
    assert HexValue(HexDigit(n / 16)) == Some(n / 16) && HexValue(HexDigit(n % 16)) == Some(n % 16);
    assert (n / 16) * 16 + n % 16 == n;
  }

  lemma {:induction false} StringComesBack(s: string, t: string)
    ensures ReadString(QuoteTail(s) + t) == Some((s, t))
  {
    if s == [] {
      assert (['\"'] + t)[1..] == t;
    } else {
      var rest := QuoteTail(s[1..]);
      Regroup(EscapeChar(s[0]), rest, t);
      CharComesBack(s[0], rest + t);
      StringComesBack(s[1..], t);
      assert s == [s[0]] + s[1..];
    }
  }

  lemma {:induction false} TokenOf(a: string, s: string)
    requires Ends(s) && forall c :: c in a ==> c !in ",]}"
    ensures Token(a + s) == a && (a + s)[|a|..] == s
  {
    if a == [] {
      assert a + s == s;
    } else {
      assert a == [a[0]] + a[1..];
      Regroup([a[0]], a[1..], s);
      assert (a + s)[1..] == a[1..] + s;
      TokenOf(a[1..], s);
    }
  }

  lemma {:induction false} DigitsComeBack(n: nat)
    ensures AllDigits(Digits(n)) && DigitsValue(Digits(n)) == n
  {
    if n >= 10 {
      DigitsComeBack(n / 10);
      assert Digits(n)[..|Digits(n)| - 1] == Digits(n / 10);
    }
  }

  predicate Number(j: Json) {
    j.JInt? || j.JFloat?
  }

  /** A text that is read as a number cannot be taken for anything else. */
  predicate NumberText(t: string) {
    t != [] && t[0] !in "\"[{ntf" && forall c :: c in t ==> c !in ",]}"
  }

  lemma DigitsAreNumberText(n: nat)
    ensures NumberText(Digits(n)) && NumberText(['-'] + Digits(n))
  {
    DigitsComeBack(n);
  }

  lemma IntComesBack(n: int)
    ensures ReadNumber(IntText(n)) == Some(JInt(n)) && NumberText(IntText(n))
  {
    if n >= 0 {
      DigitsComeBack(n);
      DigitsAreNumberText(n);
    } else {
      DigitsComeBack(-n);
      DigitsAreNumberText(-n);
      var t := IntText(n);
      assert t[1..] == Digits(-n) && t[0] == '-';
      assert !AllDigits(t) by { assert '-' in t; }
    }
  }

  lemma FloatComesBack(t: FloatToken)
    ensures ReadNumber(t) == Some(JFloat(t)) && NumberText(t)
  {
    FloatIsNotPlain(t);
  }

  lemma NumberComesBack(j: Json)
    requires Number(j)
    ensures ReadNumber(Print(j)) == Some(j) && NumberText(Print(j))
  {
    if j.JInt? { IntComesBack(j.n); } else { FloatComesBack(j.token); }
  }

  lemma FloatIsNotPlain(t: FloatToken)
    ensures !AllDigits(t) && !(t[0] == '-' && AllDigits(t[1..]))
  {
    var i :| 0 <= i < |t| && !IsDigit(t[i]) && t[i] != '-';
    assert t[i] in t;
    if i > 0 { assert t[1..][i - 1] == t[i]; }
  }

  /** A printed document, followed by a delimiter or the end, is read back as it was. */
  lemma {:induction false} ValueComesBack(j: Json, t: string)
    requires Ends(t)
    ensures ReadValue(Print(j) + t) == Some((j, t))
    decreases j, 3
  {
    if Number(j) {
      NumberIsRead(j, t);
    } else if j.JArray? {
      ArrayComesBack(j, t);
    } else if j.JObject? {
      ObjectComesBack(j, t);
    } else if j.JString? {
      Regroup(['\"'], QuoteTail(j.s), t);
      StringComesBack(j.s, t);
      assert (['\"'] + (QuoteTail(j.s) + t))[1..] == QuoteTail(j.s) + t;
    } else {
      TokenOf(Print(j), t);
    }
  }

  lemma NumberIsRead(j: Json, t: string)
    requires Number(j) && Ends(t)
    ensures ReadValue(Print(j) + t) == Some((j, t))
  {
    NumberComesBack(j);
    TokenOf(Print(j), t);
    hide Print, Token, ReadNumber;
    assert (Print(j) + t)[0] == Print(j)[0];
  }

  /** Only a closing bracket opens with a bracket: no value does. */
  lemma NoValueStartsWithCloser(j: Json)
    ensures Print(j) != [] && Print(j)[0] !in ",:]}"
  {
    if Number(j) { NumberComesBack(j); }
  }

  lemma {:induction false} ArrayComesBack(j: Json, t: string)
    requires j.JArray?
    ensures ReadValue(Print(j) + t) == Some((j, t))
    decreases j, 2
  {
    var body := PrintItems(j, 0) + t;
    Regroup(['['], PrintItems(j, 0), t);
    assert (['['] + body)[1..] == body;
    if j.items == [] {
      assert (['['] + body)[2..] == t;
    } else {
      ItemsComeBack(j, 0, t);
      NoValueStartsWithCloser(j.items[0]);
      assert (['['] + body)[1] == Print(j.items[0])[0];
      assert j.items[0..] == j.items;
    }
  }

  /** The items from index `i` on, without the comma before them. */
  function ItemsFrom(j: Json, i: nat): string
    requires j.JArray? && i < |j.items|
  {
    Print(j.items[i]) + PrintItems(j, i + 1)
  }

  lemma ItemsText(j: Json, i: nat)
    requires j.JArray? && i <= |j.items|
    ensures i == |j.items| ==> PrintItems(j, i) == [']']
    ensures i < |j.items| ==> PrintItems(j, i) == (if i == 0 then [] else [',']) + ItemsFrom(j, i)
  {
  }

  lemma {:induction false} ItemsComeBack(j: Json, i: nat, t: string)
    requires j.JArray? && i < |j.items|
    ensures ReadItems(ItemsFrom(j, i) + t) == Some((j.items[i..], t))
    ensures i == 0 ==> ItemsFrom(j, i) == PrintItems(j, i)
    decreases j, 1, |j.items| - i
  {
    var after := PrintItems(j, i + 1) + t;
    Regroup(Print(j.items[i]), PrintItems(j, i + 1), t);
    assert ItemsFrom(j, i) + t == Print(j.items[i]) + after;
    ItemsText(j, i);
    ItemsText(j, i + 1);
    hide Print, PrintItems, ReadValue, ReadItems, ItemsFrom;
    if i + 1 < |j.items| { Regroup([','], ItemsFrom(j, i + 1), t); }
    ValueComesBack(j.items[i], after);
    ItemIsRead(j.items[i], after);
    ItemsSplit(j.items, i);
    if i + 1 == |j.items| {
      assert after[1..] == t;
    } else {
      assert after[1..] == ItemsFrom(j, i + 1) + t;
      ItemsComeBack(j, i + 1, t);
    }
  }

  lemma ItemsSplit(items: seq<Json>, i: nat)
    requires i < |items|
    ensures items[i..] == [items[i]] + items[i + 1..]
    ensures i + 1 == |items| ==> items[i..] == [items[i]]
  {
  }

  /** Reading one item and what follows it. */
  lemma ItemIsRead(v: Json, after: string)
    requires after != [] && ReadValue(Print(v) + after) == Some((v, after))
    ensures after[0] == ']' ==> ReadItems(Print(v) + after) == Some(([v], after[1..]))
    ensures after[0] == ',' && ReadItems(after[1..]).Some? ==>
      ReadItems(Print(v) + after) == Some(([v] + ReadItems(after[1..]).value.0, ReadItems(after[1..]).value.1))
  {
    hide Print, ReadValue;
  }

  lemma {:induction false} ObjectComesBack(j: Json, t: string)
    requires j.JObject?
    ensures ReadValue(Print(j) + t) == Some((j, t))
    decreases j, 2
  {
    var keys := Sorted(j.fields.Keys);
    var body := PrintFields(j, keys, true) + t;
    Regroup(['{'], PrintFields(j, keys, true), t);
    assert (['{'] + body)[1..] == body;
    SortedPicksAll(j.fields);
    FieldsText(j, keys, true);
    if keys != [] { FieldsComeBack(j, keys, t); }
    hide PrintFields, SortedKeys.Sorted, FieldsFrom, Picked, ReadFields, ReadValue;
    if keys == [] {
      EmptyObjectIsRead(t);
    } else {
      ObjectIsRead(body, j.fields, t);
    }
  }

  lemma EmptyObjectIsRead(t: string)
    ensures ReadValue(['{'] + (['}'] + t)) == Some((JObject(map[]), t))
  {
    assert (['{'] + (['}'] + t))[2..] == t;
  }

  lemma ObjectIsRead(body: string, fields: map<string, Json>, t: string)
    requires body != [] && body[0] != '}' && ReadFields(body) == Some((fields, t))
    ensures ReadValue(['{'] + body) == Some((JObject(fields), t))
  {
    hide ReadFields;
    assert (['{'] + body)[1..] == body;
  }

  lemma SortedPicksAll(fields: map<string, Json>)
    ensures Picked(fields, Sorted(fields.Keys)) == fields
    ensures Sorted(fields.Keys) == [] ==> fields == map[]
  {
    if Sorted(fields.Keys) == [] { assert |fields.Keys| == 0; }
  }

  /** The members under `keys`, without the comma before them. */
  function FieldsFrom(j: Json, keys: seq<string>): string
    requires j.JObject? && keys != [] && forall k :: k in keys ==> k in j.fields
  {
    Quote(keys[0]) + ([':'] + (Print(j.fields[keys[0]]) + PrintFields(j, keys[1..], false)))
  }

  function Picked(fields: map<string, Json>, keys: seq<string>): map<string, Json>
    requires forall k :: k in keys ==> k in fields
  {
    map k | k in keys :: fields[k]
  }

  lemma FieldsText(j: Json, keys: seq<string>, first: bool)
    requires j.JObject? && forall k :: k in keys ==> k in j.fields
    ensures keys == [] ==> PrintFields(j, keys, first) == ['}']
    ensures keys != [] ==> PrintFields(j, keys, first) == (if first then [] else [',']) + FieldsFrom(j, keys)
    ensures keys != [] ==> FieldsFrom(j, keys) != [] && FieldsFrom(j, keys)[0] == '\"'
  {
    if keys != [] {
      var c, q := if first then [] else [','], Quote(keys[0]);
      var v, r := Print(j.fields[keys[0]]), PrintFields(j, keys[1..], false);
      assert PrintFields(j, keys, first) == (((c + q) + [':']) + v) + r;
      Regroup((c + q) + [':'], v, r);
      Regroup(c + q, [':'], v + r);
      Regroup(c, q, [':'] + (v + r));
    }
  }

  lemma FieldParts(j: Json, keys: seq<string>, t: string)
    requires j.JObject? && keys != [] && forall k :: k in keys ==> k in j.fields
    ensures FieldsFrom(j, keys) + t
            == ['\"'] + (QuoteTail(keys[0])
                        + ([':'] + (Print(j.fields[keys[0]]) + (PrintFields(j, keys[1..], false) + t))))
  {
    var q, v, r := QuoteTail(keys[0]), Print(j.fields[keys[0]]), PrintFields(j, keys[1..], false);
    Regroup(['\"'] + q, [':'] + (v + r), t);
    Regroup([':'], v + r, t);
    Regroup(v, r, t);
    Regroup(['\"'], q, [':'] + (v + (r + t)));
  }

  lemma {:induction false} FieldsComeBack(j: Json, keys: seq<string>, t: string)
    requires j.JObject? && keys != [] && forall k :: k in keys ==> k in j.fields
    requires forall i, k :: 0 <= i < k < |keys| ==> keys[i] != keys[k]
    ensures ReadFields(FieldsFrom(j, keys) + t) == Some((Picked(j.fields, keys), t))
    ensures FieldsFrom(j, keys) == PrintFields(j, keys, true)
    decreases j, 1, |keys|
  {
    var after := PrintFields(j, keys[1..], false) + t;
    var key, v := keys[0], j.fields[keys[0]];
    FieldsText(j, keys, true);
    FieldsText(j, keys[1..], false);
    FieldParts(j, keys, t);
    hide Print, PrintFields, QuoteTail, ReadValue, ReadString, FieldsFrom, ReadFields;
    if |keys| > 1 { Regroup([','], FieldsFrom(j, keys[1..]), t); }
    ValueComesBack(v, after);
    MemberIsRead(key, v, after);
    PickedSplits(j.fields, keys);
    if |keys| == 1 {
      assert after[1..] == t;
    } else {
      assert after[1..] == FieldsFrom(j, keys[1..]) + t;
      FieldsComeBack(j, keys[1..], t);
    }
  }

  lemma PickedSplits(fields: map<string, Json>, keys: seq<string>)
    requires keys != [] && forall k :: k in keys ==> k in fields
    requires forall i, k :: 0 <= i < k < |keys| ==> keys[i] != keys[k]
    ensures Picked(fields, keys) == map[keys[0] := fields[keys[0]]] + Picked(fields, keys[1..])
    ensures |keys| == 1 ==> Picked(fields, keys) == map[keys[0] := fields[keys[0]]]
  {
    assert keys == [keys[0]] + keys[1..];
  }

  /** Reading one member and what follows it. */
  lemma MemberIsRead(key: string, v: Json, after: string)
    requires after != [] && ReadValue(Print(v) + after) == Some((v, after))
    ensures var t := ['\"'] + (QuoteTail(key) + ([':'] + (Print(v) + after)));
            && (after[0] == '}' ==> ReadFields(t) == Some((map[key := v], after[1..])))
            && (after[0] == ',' && ReadFields(after[1..]).Some? ==>
                  var (rest, tail) := ReadFields(after[1..]).value;
                  ReadFields(t) == Some((map[key := v] + rest, tail)))
  {
    StringComesBack(key, [':'] + (Print(v) + after));
    hide Print, ReadValue, QuoteTail, ReadString;
    var text := QuoteTail(key) + ([':'] + (Print(v) + after));
    assert (['\"'] + text)[1..] == text;
    assert ([':'] + (Print(v) + after))[1..] == Print(v) + after;
  }

  /** Two documents, each followed by a delimiter or the end, that agree as texts are the
      same value followed by the same rest. */
  lemma PrintUnambiguous(x: Json, y: Json, s: string, t: string)
    requires Print(x) + s == Print(y) + t && Ends(s) && Ends(t)
    ensures x == y && s == t
  {
    ValueComesBack(x, s);
    ValueComesBack(y, t);
  }

  lemma PrintInjective(x: Json, y: Json)
    ensures Print(x) == Print(y) <==> x == y
  {
    if Print(x) == Print(y) {
      assert Print(x) + [] == Print(x) && Print(y) + [] == Print(y);
      PrintUnambiguous(x, y, [], []);
    }
  }

  // ---------- the text itself ----------

  function ItemTexts(items: seq<Json>): seq<string> {
    seq(|items|, i requires 0 <= i < |items| => Print(items[i]))
  }

  function MemberText(fields: map<string, Json>, k: string): string
    requires k in fields
  {
    Quote(k) + ([':'] + Print(fields[k]))
  }

  function MemberTexts(fields: map<string, Json>, keys: seq<string>): seq<string>
    requires forall k :: k in keys ==> k in fields
  {
    seq(|keys|, i requires 0 <= i < |keys| => MemberText(fields, keys[i]))
  }

  lemma {:induction false} ItemsJoined(j: Json, i: nat)
    requires j.JArray? && i < |j.items|
    ensures PrintItems(j, i) == (if i == 0 then [] else [',']) + Join(ItemTexts(j.items)[i..], ',') + [']']
    decreases |j.items| - i
  {
    var texts := ItemTexts(j.items);
    assert texts[i..][0] == Print(j.items[i]) && texts[i..][1..] == texts[i + 1..];
    if i + 1 < |j.items| { ItemsJoined(j, i + 1); }
  }

  /** The items of an array in order, separated by commas, with no white space. */
  lemma ArrayText(items: seq<Json>)
    ensures Print(JArray(items)) == ['['] + Join(ItemTexts(items), ',') + [']']
  {
    if items != [] {
      ItemsJoined(JArray(items), 0);
      assert ItemTexts(items)[0..] == ItemTexts(items);
    }
  }

  lemma {:induction false} FieldsJoined(j: Json, keys: seq<string>, first: bool)
    requires j.JObject? && keys != [] && forall k :: k in keys ==> k in j.fields
    ensures PrintFields(j, keys, first)
            == (if first then [] else [',']) + Join(MemberTexts(j.fields, keys), ',') + ['}']
    decreases |keys|
  {
    hide Quote, Print;
    var texts := MemberTexts(j.fields, keys);
    assert texts[1..] == MemberTexts(j.fields, keys[1..]);
    if |keys| > 1 { FieldsJoined(j, keys[1..], false); }
  }

  /** The members of an object by code points of their keys, separated by commas. */
  lemma ObjectText(fields: map<string, Json>)
    ensures Print(JObject(fields)) == ['{'] + Join(MemberTexts(fields, Sorted(fields.Keys)), ',') + ['}']
  {
    var keys := Sorted(fields.Keys);
    hide Sorted, Quote, Before, Join;
    if keys != [] {
      FieldsJoined(JObject(fields), keys, true);
    } else {
      assert MemberTexts(fields, keys) == [];
      JoinIsEmpty([], ',');
    }
  }

  predicate MustEscape(c: char) {
    c == '\"' || c == '\\' || c as int < 0x20
  }

  /** A character is escaped only if it must be, and with two characters where JSON has a
      short escape for it. */
  lemma EscapesAreMinimal(c: char)
    ensures !MustEscape(c) ==> EscapeChar(c) == [c]
    ensures MustEscape(c) ==>
              |EscapeChar(c)| == if c as int in {8, 9, 10, 12, 13, 34, 92} then 2 else 6
  {
  }

  lemma {:induction false} PlainStringText(s: string)
    requires forall c :: c in s ==> !MustEscape(c)
    ensures QuoteTail(s) == s + ['\"'] && Quote(s) == ['\"'] + s + ['\"']
  {
    if s != [] {
      PlainStringText(s[1..]);
      EscapesAreMinimal(s[0]);
      assert s == [s[0]] + s[1..];
    }
  }

  lemma {:induction false} NoLeadingZero(n: nat)
    ensures n > 0 ==> Digits(n)[0] != '0'
    ensures n == 0 ==> Digits(n) == "0"
  {
    if n >= 10 { NoLeadingZero(n / 10); }
  }

  // ---------- canonical values ----------

  /** A field value as Python holds it.  A mapping lists its entries in insertion order,
      keys already turned into strings, so a key may occur twice; `VText` is a value that
      is canonicalised to a string: a datetime, a UUID, a Decimal, bytes, or anything else. */
  datatype Value =
    | VNull
    | VBool(b: bool)
    | VInt(n: int)
    | VFloat(token: FloatToken)
    | VString(s: string)
    | VText(rendered: string)
    | VMapping(entries: seq<(string, Value)>)
    | VList(items: seq<Value>)

  function Canonical(v: Value): Json
    decreases v, 1
  {
    match v
    case VNull => JNull
    case VBool(b) => JBool(b)
    case VInt(n) => JInt(n)
    case VFloat(token) => JFloat(token)
    case VString(s) => JString(s)
    case VText(rendered) => JString(rendered)
    case VMapping(entries) => JObject(CanonicalEntries(v, |entries|))
    case VList(items) => JArray(seq(|items|, i requires 0 <= i < |items| => Canonical(items[i])))
  }

  /** The first `n` entries as a dictionary: a later entry replaces an earlier one. */
  function CanonicalEntries(v: Value, n: nat): map<string, Json>
    requires v.VMapping? && n <= |v.entries|
    decreases v, 0, n
  {
    if n == 0 then map[]
    else CanonicalEntries(v, n - 1)[v.entries[n - 1].0 := Canonical(v.entries[n - 1].1)]
  }

  predicate DistinctKeys(entries: seq<(string, Value)>) {
    forall i, j :: 0 <= i < j < |entries| ==> entries[i].0 != entries[j].0
  }

  function Keys(entries: seq<(string, Value)>): set<string> {
    set i | 0 <= i < |entries| :: entries[i].0
  }

  /** No entry after the one at `i` has its key. */
  predicate IsLast(entries: seq<(string, Value)>, i: int) {
    0 <= i < |entries| && forall j :: i < j < |entries| ==> entries[j].0 != entries[i].0
  }

  lemma {:induction false} EntryIsCollected(v: Value, n: nat, i: nat)
    requires v.VMapping? && i < n <= |v.entries|
    requires forall j :: i < j < n ==> v.entries[j].0 != v.entries[i].0
    ensures v.entries[i].0 in CanonicalEntries(v, n)
    ensures CanonicalEntries(v, n)[v.entries[i].0] == Canonical(v.entries[i].1)
  {
    if i < n - 1 { EntryIsCollected(v, n - 1, i); }
  }

  lemma {:induction false} LastEntry(entries: seq<(string, Value)>, k: string) returns (i: nat)
    requires k in Keys(entries)
    ensures IsLast(entries, i) && entries[i].0 == k
  {
    var n := |entries| - 1;
    if entries[n].0 == k {
      i := n;
    } else {
      var m :| 0 <= m < |entries| && entries[m].0 == k;
      assert entries[..n][m].0 == k;
      i := LastEntry(entries[..n], k);
      assert forall j :: 0 <= j < n ==> entries[..n][j] == entries[j];
    }
  }

  lemma {:induction false} CollectedKeys(v: Value, n: nat)
    requires v.VMapping? && n <= |v.entries|
    ensures CanonicalEntries(v, n).Keys == Keys(v.entries[..n])
  {
    if n > 0 {
      CollectedKeys(v, n - 1);
      KeysGrow(v.entries, n);
    }
  }

  lemma KeysGrow(entries: seq<(string, Value)>, n: nat)
    requires 0 < n <= |entries|
    ensures Keys(entries[..n]) == Keys(entries[..n - 1]) + {entries[n - 1].0}
  {
    forall k | k in Keys(entries[..n - 1]) ensures k in Keys(entries[..n]) {
      var i :| 0 <= i < n - 1 && entries[..n - 1][i].0 == k;
      assert entries[..n][i].0 == k;
    }
    assert entries[..n][n - 1] == entries[n - 1];
    forall k | k in Keys(entries[..n]) ensures k in Keys(entries[..n - 1]) + {entries[n - 1].0} {
      var i :| 0 <= i < n && entries[..n][i].0 == k;
      if i < n - 1 { assert entries[..n - 1][i].0 == k; }
    }
  }

  /** `w` is `v` with the entries of its mappings, at any depth, in another order. */
  ghost predicate Reordered(v: Value, w: Value)
    decreases v
  {
    match v
    case VMapping(entries) =>
      && w.VMapping? && DistinctKeys(entries) && DistinctKeys(w.entries)
      && Keys(entries) == Keys(w.entries)
      && (forall i, j :: 0 <= i < |entries| && 0 <= j < |w.entries| && entries[i].0 == w.entries[j].0 ==>
            Reordered(entries[i].1, w.entries[j].1))
    case VList(items) =>
      && w.VList? && |items| == |w.items|
      && forall i :: 0 <= i < |items| ==> Reordered(items[i], w.items[i])
    case _ => v == w
  }

  /** Insertion order does not matter, at any depth. */
  lemma {:induction false} OrderFree(v: Value, w: Value)
    requires Reordered(v, w)
    ensures Canonical(v) == Canonical(w)
    decreases v
  {
    match v
    case VMapping(entries) =>
      forall i, j | 0 <= i < |entries| && 0 <= j < |w.entries| && entries[i].0 == w.entries[j].0
        ensures Canonical(entries[i].1) == Canonical(w.entries[j].1)
      {
        OrderFree(entries[i].1, w.entries[j].1);
      }
      SameCollection(v, w);
    case VList(items) =>
      forall i | 0 <= i < |items| ensures Canonical(items[i]) == Canonical(w.items[i]) {
        OrderFree(items[i], w.items[i]);
      }
    case _ =>
  }

  lemma SameCollection(v: Value, w: Value)
    requires v.VMapping? && w.VMapping? && DistinctKeys(v.entries) && DistinctKeys(w.entries)
    requires Keys(v.entries) == Keys(w.entries)
    requires forall i, j :: 0 <= i < |v.entries| && 0 <= j < |w.entries| && v.entries[i].0 == w.entries[j].0 ==>
               Canonical(v.entries[i].1) == Canonical(w.entries[j].1)
    ensures CanonicalEntries(v, |v.entries|) == CanonicalEntries(w, |w.entries|)
  {
    var f, g := CanonicalEntries(v, |v.entries|), CanonicalEntries(w, |w.entries|);
    CollectedKeys(v, |v.entries|);
    CollectedKeys(w, |w.entries|);
    assert v.entries[..|v.entries|] == v.entries && w.entries[..|w.entries|] == w.entries;
    assert f.Keys == g.Keys;
    forall k | k in f ensures f[k] == g[k] {
      assert k in Keys(v.entries) && k in Keys(w.entries);
      var i :| 0 <= i < |v.entries| && v.entries[i].0 == k;
      var j :| 0 <= j < |w.entries| && w.entries[j].0 == k;
      EntryIsCollected(v, |v.entries|, i);
      EntryIsCollected(w, |w.entries|, j);
    }
  }

  // ---------- what the canonical value keeps ----------

  /** The same value to the audit log: a list item by item, a mapping by its last entry for
      each key, and anything that is not JSON by its text. */
  ghost predicate SameValue(v: Value, w: Value)
    decreases v
  {
    match v
    case VNull => w.VNull?
    case VBool(b) => w.VBool? && w.b == b
    case VInt(n) => w.VInt? && w.n == n
    case VFloat(token) => w.VFloat? && w.token == token
    case VString(s) => (w.VString? && w.s == s) || (w.VText? && w.rendered == s)
    case VText(s) => (w.VString? && w.s == s) || (w.VText? && w.rendered == s)
    case VList(items) =>
      w.VList? && |items| == |w.items| && forall i :: 0 <= i < |items| ==> SameValue(items[i], w.items[i])
    case VMapping(entries) =>
      && w.VMapping? && Keys(entries) == Keys(w.entries)
      && forall i, j :: IsLast(entries, i) && IsLast(w.entries, j) && entries[i].0 == w.entries[j].0 ==>
           SameValue(entries[i].1, w.entries[j].1)
  }

  /** Two values have the same canonical value if and only if they are the same. */
  lemma {:induction false} CanonicalIffSame(v: Value, w: Value)
    ensures Canonical(v) == Canonical(w) <==> SameValue(v, w)
    decreases v
  {
    match v
    case VList(items) =>
      if w.VList? && |items| == |w.items| {
        forall i | 0 <= i < |items|
          ensures Canonical(items[i]) == Canonical(w.items[i]) <==> SameValue(items[i], w.items[i])
        {
          CanonicalIffSame(items[i], w.items[i]);
        }
        SameItems(v, w);
      } else if w.VList? {
        assert |Canonical(v).items| != |Canonical(w).items|;
      }
    case VMapping(entries) =>
      if w.VMapping? {
        forall i, j | IsLast(entries, i) && IsLast(w.entries, j)
          ensures Canonical(entries[i].1) == Canonical(w.entries[j].1) <==> SameValue(entries[i].1, w.entries[j].1)
        {
          CanonicalIffSame(entries[i].1, w.entries[j].1);
        }
        if Canonical(v) == Canonical(w) { EqualEntriesAgree(v, w); }
        if SameValue(v, w) { AgreeingEntriesAreEqual(v, w); }
      }
    case _ =>
  }

  lemma SameItems(v: Value, w: Value)
    requires v.VList? && w.VList? && |v.items| == |w.items|
    ensures Canonical(v) == Canonical(w)
            <==> forall i :: 0 <= i < |v.items| ==> Canonical(v.items[i]) == Canonical(w.items[i])
  {
    var a, b := Canonical(v).items, Canonical(w).items;
    assert |a| == |b| == |v.items|;
    assert forall i :: 0 <= i < |a| ==> a[i] == Canonical(v.items[i]) && b[i] == Canonical(w.items[i]);
  }

  ghost predicate SameLast(v: Value, w: Value)
    requires v.VMapping? && w.VMapping?
  {
    forall i, j :: IsLast(v.entries, i) && IsLast(w.entries, j) && v.entries[i].0 == w.entries[j].0 ==>
      Canonical(v.entries[i].1) == Canonical(w.entries[j].1)
  }

  lemma CollectedUnder(v: Value, i: int)
    requires v.VMapping? && IsLast(v.entries, i)
    ensures var f := CanonicalEntries(v, |v.entries|);
            v.entries[i].0 in f && f[v.entries[i].0] == Canonical(v.entries[i].1)
  {
    EntryIsCollected(v, |v.entries|, i);
  }

  lemma CollectedAll(v: Value)
    requires v.VMapping?
    ensures CanonicalEntries(v, |v.entries|).Keys == Keys(v.entries)
  {
    CollectedKeys(v, |v.entries|);
    assert v.entries[..|v.entries|] == v.entries;
  }

  lemma EqualEntriesAgree(v: Value, w: Value)
    requires v.VMapping? && w.VMapping? && CanonicalEntries(v, |v.entries|) == CanonicalEntries(w, |w.entries|)
    ensures Keys(v.entries) == Keys(w.entries) && SameLast(v, w)
  {
    hide CanonicalEntries, Canonical, Keys;
    CollectedAll(v);
    CollectedAll(w);
    forall i, j | IsLast(v.entries, i) && IsLast(w.entries, j) && v.entries[i].0 == w.entries[j].0
      ensures Canonical(v.entries[i].1) == Canonical(w.entries[j].1)
    {
      CollectedUnder(v, i);
      CollectedUnder(w, j);
    }
  }

  lemma AgreeingEntriesAreEqual(v: Value, w: Value)
    requires v.VMapping? && w.VMapping? && Keys(v.entries) == Keys(w.entries) && SameLast(v, w)
    ensures CanonicalEntries(v, |v.entries|) == CanonicalEntries(w, |w.entries|)
  {
    hide CanonicalEntries, Canonical, Keys;
    CollectedAll(v);
    CollectedAll(w);
    var f, g := CanonicalEntries(v, |v.entries|), CanonicalEntries(w, |w.entries|);
    forall k | k in f ensures f[k] == g[k] {
      var i := LastEntry(v.entries, k);
      var j := LastEntry(w.entries, k);
      CollectedUnder(v, i);
      CollectedUnder(w, j);
    }
  }

  lemma SameAsItself(v: Value)
    ensures SameValue(v, v)
  {
    CanonicalIffSame(v, v);
  }
}
