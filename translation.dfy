/** The translation context (context/TranslationContext.tsx): the provider picks
    the message tree of its locale, and `t(key)` walks a dotted key down that
    tree, answering the key itself whenever the walk does not end on a string.
    The message files themselves are not part of this model: a tree is any
    parsed JSON value. */
module Translation {
  import opened Wrappers
  import opened Strings
  import opened Json

  /** The message tree the provider uses: English exactly for "en", Arabic for
      every other locale string. */
  function SelectMessages(locale: string, arMessages: Json, enMessages: Json): (m: Json)
    ensures locale == "en" ==> m == enMessages
    ensures locale != "en" ==> m == arMessages
  {
    if locale == "en" then enMessages else arMessages
  }

  /** One turn of the loop in `t`: `value && typeof value === "object" && k in value`
      holds for objects owning the member and for arrays with that index or
      "length"; the new value is that member. None is the early `return key`. */
  function Step(value: Json, k: string): (r: Option<Json>)
    ensures r.Some? ==> value.JObj? || value.JArr?
  {
    match value
    case JObj(_) => Get(value, k)
    case JArr(items) => ArrayMember(items, k)
    case _ => None
  }

  /** `k in array` and `array[k]`: "length", or the decimal name of an index. */
  function ArrayMember(items: seq<Json>, k: string): Option<Json>
  {
    if k == "length" then Some(JNum(|items|))
    else
      match IndexNamed(k, 0, |items|)
      case Some(i) => Some(items[i])
      case None => None
  }

  /** The first index in [from, to) whose decimal name is `k`. */
  function IndexNamed(k: string, from: nat, to: nat): (r: Option<nat>)
    requires from <= to
    ensures r.Some? ==> from <= r.value < to && NatToString(r.value) == k
    decreases (to as int) - (from as int)
  {
    if from == to then None
    else if NatToString(from) == k then Some(from)
    else IndexNamed(k, from + 1, to)
  }

  /** The value reached by following `path` from `value`, or None when some
      turn of the loop returns early. */
  function Walk(value: Json, path: seq<string>): Option<Json>
    decreases |path|
  {
    if |path| == 0 then Some(value)
    else
      match Step(value, path[0])
      case None => None
      case Some(next) => Walk(next, path[1..])
  }

  /** Walking a path in two pieces is walking the first piece, then the second
      from where the first ended. */
  lemma {:induction false} WalkAppend(value: Json, p: seq<string>, q: seq<string>)
    ensures Walk(value, p + q) ==
      match Walk(value, p)
      case None => None
      case Some(v) => Walk(v, q)
    decreases |p|
  {
    if |p| == 0 {
      assert p + q == q;
    } else {
      assert (p + q)[0] == p[0];
      assert (p + q)[1..] == p[1..] + q;
      match Step(value, p[0])
      case None =>
      case Some(next) => WalkAppend(next, p[1..], q);
    }
  }

  /** What `t(key)` answers, stated on the walk of `key.split(".")`. */
  function Translate(messages: Json, key: string): string
  {
    match Walk(messages, Split(key, '.'))
    case Some(JStr(s)) => s
    case _ => key
  }

  /** `t(key)`: the loop over the key's segments with its early return. */
  method T(messages: Json, key: string) returns (r: string)
    ensures r == Translate(messages, key)
  {
    var keys := Split(key, '.');
    var value := messages;
    for i := 0 to |keys|
      invariant Walk(messages, keys) == Walk(value, keys[i..])
    {
      assert keys[i..][0] == keys[i] && keys[i..][1..] == keys[i + 1..];
      var next := Step(value, keys[i]);
      if next.None? {
        return key;
      }
      value := next.value;
    }
    assert keys[|keys|..] == [];
    if value.JStr? {
      r := value.s;
    } else {
      r := key;
    }
  }

  /** A walk that ends on a string yields that string. */
  lemma {:induction false} TranslateFound(messages: Json, key: string, s: string)
    requires Walk(messages, Split(key, '.')) == Some(JStr(s))
    ensures Translate(messages, key) == s
  {
  }

  /** If the walk stops early at some segment (the member is missing, or the
      value reached so far is not an object or array), the answer is the key. */
  lemma {:induction false} TranslateMissingSegment(messages: Json, key: string, i: nat, v: Json)
    requires i < |Split(key, '.')|
    requires Walk(messages, Split(key, '.')[..i]) == Some(v)
    requires Step(v, Split(key, '.')[i]).None?
    ensures Translate(messages, key) == key
  {
    var keys := Split(key, '.');
    assert keys == keys[..i] + keys[i..];
    WalkAppend(messages, keys[..i], keys[i..]);
    assert keys[i..][0] == keys[i];
  }

  /** If the walk ends on anything but a string (a nested object, a number,
      null, an array), the answer is the key. */
  lemma {:induction false} TranslateNonString(messages: Json, key: string, v: Json)
    requires Walk(messages, Split(key, '.')) == Some(v)
    requires !v.JStr?
    ensures Translate(messages, key) == key
  {
  }

  /** The answer is always either the key or a string that sits in the tree at
      the key's path: `t` never invents text. */
  lemma {:induction false} TranslateKeyOrText(messages: Json, key: string)
    ensures Translate(messages, key) == key ||
      Walk(messages, Split(key, '.')) == Some(JStr(Translate(messages, key)))
  {
  }

  /** A key with no '.' names a top-level member directly. */
  lemma {:induction false} TranslateTopLevel(messages: Json, key: string, s: string)
    requires '.' !in key
    requires messages.JObj?
    requires Get(messages, key) == Some(JStr(s))
    ensures Translate(messages, key) == s
  {
    SplitWithoutSeparator(key, '.');
    assert Step(messages, key) == Some(JStr(s));
    assert Walk(JStr(s), []) == Some(JStr(s));
    assert Walk(messages, [key]) == Walk(JStr(s), [key][1..]);
    assert [key][1..] == [];
  }

  /** A key "a.b" resolves to the member b of the object at a. */
  lemma {:induction false} TranslateTwoLevels(messages: Json, a: string, b: string, section: Json, s: string)
    requires '.' !in a && '.' !in b
    requires Get(messages, a) == Some(section)
    requires Get(section, b) == Some(JStr(s))
    ensures Translate(messages, a + "." + b) == s
  {
    SplitTwo(a, b);
    var path := Split(a + "." + b, '.');
    assert path[0] == a && path[1..] == [b];
    assert Step(messages, a) == Some(section);
    assert section.JObj?;
    assert Step(section, b) == Some(JStr(s));
    assert [b][1..] == [];
    assert Walk(section, [b]) == Walk(JStr(s), []);
    assert Walk(messages, [a, b]) == Walk(section, [a, b][1..]);
    assert [a, b][1..] == [b];
  }

  lemma {:induction false} SplitTwo(a: string, b: string)
    requires '.' !in a && '.' !in b
    ensures Split(a + "." + b, '.') == [a, b]
    decreases |a|
  {
    if |a| == 0 {
      assert a + "." + b == "." + b;
      assert ("." + b)[1..] == b;
      SplitWithoutSeparator(b, '.');
    } else {
      assert (a + "." + b)[1..] == a[1..] + "." + b;
      SplitTwo(a[1..], b);
      assert [a[0]] + a[1..] == a;
    }
  }

  /** What components receive from `useTranslation`. */
  datatype Context = Context(locale: string, messages: Json)

  const NoProviderMessage: string := "useTranslation must be used within TranslationProvider"

  /** `useTranslation`: the provider's context, and an error outside any provider. */
  function UseTranslation(provided: Option<Context>): (r: Result<Context>)
    ensures provided.None? <==> r.Err?
    ensures r.Err? ==> r.message == NoProviderMessage
    ensures r.Ok? ==> Some(r.value) == provided
  {
    match provided
    case None => Err(NoProviderMessage)
    case Some(c) => Ok(c)
  }
}
