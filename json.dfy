/** Parsed JSON values as the components see them after `response.json()`,
    with the JavaScript operations applied to them: truthiness,
    property access (`value.key`), `String(value)` and `JSON.stringify`,
    with `JSON.parse`'s reading of a string literal as its partner.
    Numbers are integers here. */
module Json {
  import opened Wrappers

  datatype Json =
    | JNull
    | JBool(b: bool)
    | JNum(n: int)
    | JStr(s: string)
    | JArr(items: seq<Json>)
    | JObj(fields: seq<Field>)

  /** One `"key": value` member of an object, in text order. */
  datatype Field = Field(key: string, value: Json)

  /** JavaScript truthiness of a parsed value: `null`, `false`, `0` and `""`
      are falsy; every array and object is truthy. */
  predicate Truthy(j: Json)
  {
    match j
    case JNull => false
    case JBool(b) => b
    case JNum(n) => n != 0
    case JStr(s) => s != ""
    case JArr(_) => true
    case JObj(_) => true
  }

  /** `j.key` on a non-null value: the field's value for an object (the last
      one when the text repeated the key, as `JSON.parse` keeps), and
      `undefined` (None) otherwise. */
  function Get(j: Json, key: string): (r: Option<Json>)
    ensures r.Some? ==> j.JObj? && exists k :: 0 <= k < |j.fields| && j.fields[k] == Field(key, r.value)
    ensures j.JObj? && (forall k :: 0 <= k < |j.fields| ==> j.fields[k].key != key) ==> r.None?
  {
    match j
    case JObj(fields) => FieldValue(fields, key)
    case _ => None
  }

  function FieldValue(fields: seq<Field>, key: string): (r: Option<Json>)
    ensures r.Some? ==> exists k :: 0 <= k < |fields| && fields[k] == Field(key, r.value)
    ensures (forall k :: 0 <= k < |fields| ==> fields[k].key != key) ==> r.None?
    decreases |fields|
  {
    if |fields| == 0 then None
    else
      var last := fields[|fields| - 1];
      if last.key == key then Some(last.value)
      else
        var r := FieldValue(fields[..|fields| - 1], key);
        assert forall k :: 0 <= k < |fields| - 1 ==> fields[..|fields| - 1][k] == fields[k];
        r
  }

  /** The decimal text of an integer, as JavaScript prints it. */
  function IntToString(n: int): (r: string)
    ensures |r| >= 1
  {
    if n < 0 then "-" + NatToString(-n) else NatToString(n)
  }

  function NatToString(n: nat): (r: string)
    ensures |r| >= 1
    decreases n
  {
    var d := ['0', '1', '2', '3', '4', '5', '6', '7', '8', '9'][n % 10];
    if n < 10 then [d] else NatToString(n / 10) + [d]
  }

  /** `String(j)`, which is what `new Error(j)` stores as its message. */
  function ToJsString(j: Json): string
    decreases j
  {
    match j
    case JNull => "null"
    case JBool(b) => if b then "true" else "false"
    case JNum(n) => IntToString(n)
    case JStr(s) => s
    case JArr(items) => JoinItems(items)
    case JObj(_) => "[object Object]"
  }

  /** `Array.prototype.join(",")`, which prints `null` elements as "". */
  function JoinItems(items: seq<Json>): string
    decreases items
  {
    if |items| == 0 then ""
    else
      var head := if items[0].JNull? then "" else ToJsString(items[0]);
      if |items| == 1 then head else head + "," + JoinItems(items[1..])
  }

  // ------------------------------------------------------------ strings

  /** A lower-case hexadecimal digit. */
  function HexDigit(n: nat): char
    requires n < 16
  {
    "0123456789abcdef"[n]
  }

  /** How `JSON.stringify` writes one character of a string: the quote and
      the backslash behind a backslash, the five control characters that
      have short escapes, every other control character as `\u00XX`, and
      everything else as it is. */
  function EscapeChar(c: char): string
  {
    if c == '"' then "\\\""
    else if c == '\\' then "\\\\"
    else if c == '\U{0008}' then "\\b"
    else if c == '\t' then "\\t"
    else if c == '\n' then "\\n"
    else if c == '\U{000C}' then "\\f"
    else if c == '\r' then "\\r"
    else if c < ' ' then "\\u00" + [HexDigit(c as int / 16), HexDigit(c as int % 16)]
    else [c]
  }

  function Escape(s: string): string
    decreases |s|
  {
    if |s| == 0 then "" else EscapeChar(s[0]) + Escape(s[1..])
  }

  /** A string as a JSON literal. */
  function Quote(s: string): string
  {
    "\"" + Escape(s) + "\""
  }

  /** The value of a hexadecimal digit, either case. */
  function HexValue(c: char): (r: Option<nat>)
    ensures r.Some? ==> r.value < 16
  {
    if '0' <= c <= '9' then Some(c as int - '0' as int)
    else if 'a' <= c <= 'f' then Some(c as int - 'a' as int + 10)
    else if 'A' <= c <= 'F' then Some(c as int - 'A' as int + 10)
    else None
  }

  /** The character a one-letter escape stands for. */
  function ShortEscape(e: char): Option<char>
  {
    match e
    case '"' => Some('"')
    case '\\' => Some('\\')
    case '/' => Some('/')
    case 'b' => Some('\U{0008}')
    case 'f' => Some('\U{000C}')
    case 'n' => Some('\n')
    case 'r' => Some('\r')
    case 't' => Some('\t')
    case _ => None
  }

  function Prepend(c: char, rest: Option<string>): Option<string>
  {
    match rest
    case None => None
    case Some(s) => Some([c] + s)
  }

  /** How `JSON.parse` reads the text between the quotes of a string literal:
      a raw quote or control character is an error, and so is an unknown
      escape or a `\u` escape naming half of a surrogate pair (a pair is not
      read here). */
  function Unescape(t: string): Option<string>
    decreases |t|
  {
    if |t| == 0 then Some("")
    else if t[0] == '"' || t[0] < ' ' then None
    else if t[0] != '\\' then Prepend(t[0], Unescape(t[1..]))
    else if |t| < 2 then None
    else if t[1] != 'u' then
      match ShortEscape(t[1])
      case None => None
      case Some(c) => Prepend(c, Unescape(t[2..]))
    else if |t| < 6 then None
    else
      match (HexValue(t[2]), HexValue(t[3]), HexValue(t[4]), HexValue(t[5]))
      case (Some(a), Some(b), Some(c), Some(d)) =>
        var v := ((a * 16 + b) * 16 + c) * 16 + d;
        if 0xD800 <= v < 0xE000 then None else Prepend(v as char, Unescape(t[6..]))
      case _ => None
  }

  lemma HexDigitValue(n: nat)
    requires n < 16
    ensures HexValue(HexDigit(n)) == Some(n)
  {
  }

  /** Reading back a one-letter escape. */
  lemma {:induction false} UnescapePair(e: char, c: char, rest: string)
    requires e != 'u' && ShortEscape(e) == Some(c)
    ensures Unescape(['\\', e] + rest) == Prepend(c, Unescape(rest))
  {
    assert (['\\', e] + rest)[2..] == rest;
  }

  /** Reading back a `\u00XX` escape. */
  lemma {:induction false} UnescapeHex(c: char, rest: string)
    requires c < ' '
    ensures Unescape("\\u00" + [HexDigit(c as int / 16), HexDigit(c as int % 16)] + rest) == Prepend(c, Unescape(rest))
  {
    var hi := c as int / 16;
    var lo := c as int % 16;
    var t := "\\u00" + [HexDigit(hi), HexDigit(lo)] + rest;
    HexDigitValue(hi);
    HexDigitValue(lo);
    HexDigitValue(0);
    assert t[2] == '0' && t[3] == '0' && t[4] == HexDigit(hi) && t[5] == HexDigit(lo);
    assert t[6..] == rest;
    assert ((0 * 16 + 0) * 16 + hi) * 16 + lo == c as int;
  }

  /** Reading back one written character. */
  lemma {:induction false} UnescapeEscapeChar(c: char, rest: string)
    ensures Unescape(EscapeChar(c) + rest) == Prepend(c, Unescape(rest))
  {
    if c == '"' {
      UnescapePair('"', c, rest);
    } else if c == '\\' {
      UnescapePair('\\', c, rest);
    } else if c == '\U{0008}' {
      UnescapePair('b', c, rest);
    } else if c == '\t' {
      UnescapePair('t', c, rest);
    } else if c == '\n' {
      UnescapePair('n', c, rest);
    } else if c == '\U{000C}' {
      UnescapePair('f', c, rest);
    } else if c == '\r' {
      UnescapePair('r', c, rest);
    } else if c < ' ' {
      UnescapeHex(c, rest);
    } else {
      assert ([c] + rest)[1..] == rest;
    }
  }

  /** `JSON.parse` gives back every string `JSON.stringify` wrote. */
  lemma {:induction false} UnescapeEscape(s: string)
    ensures Unescape(Escape(s)) == Some(s)
    decreases |s|
  {
    if |s| > 0 {
      UnescapeEscapeChar(s[0], Escape(s[1..]));
      UnescapeEscape(s[1..]);
      assert [s[0]] + s[1..] == s;
    }
  }

  /** A string without quotes, backslashes or control characters is written
      as it is. */
  lemma {:induction false} EscapePlain(s: string)
    requires forall k :: 0 <= k < |s| ==> s[k] >= ' ' && s[k] != '"' && s[k] != '\\'
    ensures Escape(s) == s
    decreases |s|
  {
    if |s| > 0 {
      EscapePlain(s[1..]);
      assert [s[0]] + s[1..] == s;
    }
  }

  /** The written text holds no control character, so a newline in the
      notes travels as the two characters `\n`. */
  lemma {:induction false} EscapePrintable(s: string)
    ensures forall k :: 0 <= k < |Escape(s)| ==> Escape(s)[k] >= ' '
    decreases |s|
  {
    if |s| > 0 {
      EscapePrintable(s[1..]);
      var head := EscapeChar(s[0]);
      EscapeCharPrintable(s[0]);
      assert Escape(s) == head + Escape(s[1..]);
      assert forall k :: |head| <= k < |Escape(s)| ==> Escape(s)[k] == Escape(s[1..])[k - |head|];
    }
  }

  lemma EscapeCharPrintable(c: char)
    ensures forall k :: 0 <= k < |EscapeChar(c)| ==> EscapeChar(c)[k] >= ' '
  {
    if c < ' ' && c != '\U{0008}' && c != '\t' && c != '\n' && c != '\U{000C}' && c != '\r' {
      var h := [HexDigit(c as int / 16), HexDigit(c as int % 16)];
      assert EscapeChar(c) == "\\u00" + h;
    }
  }

  // ------------------------------------------------------------ values

  /** The position of the last member named `key`. */
  function LastIndex(fields: seq<Field>, key: string): (r: Option<nat>)
    ensures r.Some? ==> r.value < |fields| && fields[r.value].key == key
    ensures r.Some? ==> forall m :: r.value < m < |fields| ==> fields[m].key != key
    ensures r.None? ==> forall k :: 0 <= k < |fields| ==> fields[k].key != key
    decreases |fields|
  {
    if |fields| == 0 then None
    else if fields[|fields| - 1].key == key then Some(|fields| - 1)
    else LastIndex(fields[..|fields| - 1], key)
  }

  /** Whether the member at `i` repeats a key seen before it. */
  predicate SeenBefore(fields: seq<Field>, i: nat)
    requires i < |fields|
  {
    exists k :: 0 <= k < i && fields[k].key == fields[i].key
  }

  /** The members `JSON.parse` keeps of `fields[i..]`, as pairs of
      positions: a key's first position, where it is printed, and its last,
      whose value it keeps. */
  function KeptMembers(fields: seq<Field>, i: nat): (r: seq<(nat, nat)>)
    requires i <= |fields|
    ensures forall k :: 0 <= k < |r| ==> i <= r[k].0 <= r[k].1 < |fields|
    ensures forall k :: 0 <= k < |r| ==> fields[r[k].1].key == fields[r[k].0].key
    ensures forall k :: 0 <= k < |r| ==> !SeenBefore(fields, r[k].0)
    decreases |fields| - i
  {
    if i == |fields| then []
    else if SeenBefore(fields, i) then KeptMembers(fields, i + 1)
    else
      var last := LastIndex(fields, fields[i].key).value;
      [(i, last)] + KeptMembers(fields, i + 1)
  }

  /** `JSON.stringify(j)` of the object `JSON.parse` built from the text: one
      member per key, at the key's first occurrence and with the value of its
      last. */
  function Stringify(j: Json): (r: string)
    decreases j
  {
    match j
    case JNull => "null"
    case JBool(b) => if b then "true" else "false"
    case JNum(n) => IntToString(n)
    case JStr(s) => Quote(s)
    case JArr(items) => "[" + StringifyItems(items) + "]"
    case JObj(fields) => "{" + StringifyMembers(fields, KeptMembers(fields, 0)) + "}"
  }

  function StringifyItems(items: seq<Json>): string
    decreases items
  {
    if |items| == 0 then ""
    else if |items| == 1 then Stringify(items[0])
    else Stringify(items[0]) + "," + StringifyItems(items[1..])
  }

  /** The members at the kept positions, `"key":value`, comma-separated. */
  function StringifyMembers(fields: seq<Field>, kept: seq<(nat, nat)>): string
    requires forall k :: 0 <= k < |kept| ==> kept[k].0 < |fields| && kept[k].1 < |fields|
    decreases fields, |kept|
  {
    if |kept| == 0 then ""
    else
      var m := Quote(fields[kept[0].0].key) + ":" + Stringify(fields[kept[0].1].value);
      if |kept| == 1 then m else m + "," + StringifyMembers(fields, kept[1..])
  }

  /** The positions `i` to `n - 1`, each paired with itself. */
  function OwnPositions(i: nat, n: nat): seq<(nat, nat)>
    decreases n - i
  {
    if i >= n then [] else [(i, i)] + OwnPositions(i + 1, n)
  }

  /** With distinct keys, as in every record the client builds, each member
      is kept once, in order, with its own value. */
  lemma {:induction false} DistinctKeysPrintInOrder(fields: seq<Field>, i: nat)
    requires i <= |fields|
    requires forall a, b :: 0 <= a < b < |fields| ==> fields[a].key != fields[b].key
    ensures KeptMembers(fields, i) == OwnPositions(i, |fields|)
    decreases |fields| - i
  {
    if i < |fields| {
      DistinctKeysPrintInOrder(fields, i + 1);
      FirstAndLast(fields, i);
    }
  }

  /** With distinct keys, each member is both the first and the last with
      its key. */
  lemma {:induction false} FirstAndLast(fields: seq<Field>, i: nat)
    requires i < |fields|
    requires forall a, b :: 0 <= a < b < |fields| ==> fields[a].key != fields[b].key
    ensures !SeenBefore(fields, i)
    ensures LastIndex(fields, fields[i].key) == Some(i)
  {
    forall k | 0 <= k < i ensures fields[k].key != fields[i].key { }
  }

  /** A key the text repeats is printed once, with its last value. */
  lemma DuplicateKeyPrintedOnce(j: Json)
    requires j == JObj([Field("a", JNum(1)), Field("a", JNum(2))])
    ensures Stringify(j) == "{\"a\":2}"
  {
    var fields := j.fields;
    assert fields[0].key == fields[1].key;
    assert SeenBefore(fields, 1);
    assert !SeenBefore(fields, 0);
    assert LastIndex(fields, "a") == Some(1);
    assert Quote("a") == "\"a\"";
  }

  /** `JSON.stringify` of a parsed value never yields the empty string: the
      shortest texts are "0", "[]", "{}". So an `a || JSON.stringify(v) || b`
      chain never reaches `b`. */
  lemma StringifyNonEmpty(j: Json)
    ensures Stringify(j) != ""
    ensures |Stringify(j)| >= 1
  {
  }
}
