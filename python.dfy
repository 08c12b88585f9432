/** The part of the Python runtime that the bot's logic observes: the values
    `response.json()` can produce, dictionary lookup, `str()`, `repr()`,
    `type()` and the text of the exceptions the bot raises or meets. */
module Python {

  datatype Option<+T> = None | Some(value: T)

  /** A decoded JSON document as Python sees it. A `dict` keeps its keys in
      insertion order, so it is a sequence of (key, value) entries. */
  datatype Json =
    | JNone
    | JBool(b: bool)
    | JInt(i: int)
    | JStr(s: string)
    | JList(items: seq<Json>)
    | JDict(entries: seq<(string, Json)>)

  /** `key in d`: the key of some entry. */
  predicate HasKey(entries: seq<(string, Json)>, key: string)
  {
    exists i :: 0 <= i < |entries| && entries[i].0 == key
  }

  /** `d.get(key)` without a default: the value stored under `key`, found at
      the first entry that carries it (see `LookupFindsFirst`). */
  function Lookup(entries: seq<(string, Json)>, key: string): Option<Json>
  {
    if |entries| == 0 then None
    else if entries[0].0 == key then Some(entries[0].1)
    else Lookup(entries[1..], key)
  }

  /** The lookup succeeds exactly when `key in d`, and then yields the value
      of the first entry under that key. */
  lemma {:induction false} LookupFindsFirst(entries: seq<(string, Json)>, key: string)
    ensures Lookup(entries, key).Some? <==> HasKey(entries, key)
    ensures Lookup(entries, key).Some? ==>
              exists i :: 0 <= i < |entries| && entries[i] == (key, Lookup(entries, key).value)
                          && forall j :: 0 <= j < i ==> entries[j].0 != key
  {
    if |entries| > 0 && entries[0].0 != key {
      LookupFindsFirst(entries[1..], key);
      assert forall j :: 1 <= j < |entries| ==> entries[j] == entries[1..][j - 1];
      if HasKey(entries, key) {
        var i :| 0 <= i < |entries| && entries[i].0 == key;
        assert entries[1..][i - 1].0 == key;
      }
      if Lookup(entries, key).Some? {
        var i :| 0 <= i < |entries| - 1 && entries[1..][i] == (key, Lookup(entries, key).value)
                 && forall j :: 0 <= j < i ==> entries[1..][j].0 != key;
        assert entries[i + 1] == (key, Lookup(entries, key).value);
      }
    }
  }

  /** `d.get(key, default)`. */
  function Get(entries: seq<(string, Json)>, key: string, default: Json): Json
  {
    match Lookup(entries, key)
    case Some(v) => v
    case None => default
  }

  /** The dictionary with every entry under `key` taken out. */
  function Without(entries: seq<(string, Json)>, key: string): (r: seq<(string, Json)>)
    ensures Lookup(r, key).None?
    ensures |r| <= |entries|
  {
    if |entries| == 0 then []
    else if entries[0].0 == key then Without(entries[1..], key)
    else [entries[0]] + Without(entries[1..], key)
  }

  /** Removing one key leaves the lookup of every other key as it was. */
  lemma {:induction false} LookupWithout(entries: seq<(string, Json)>, removed: string, key: string)
    requires key != removed
    ensures Lookup(Without(entries, removed), key) == Lookup(entries, key)
  {
    if |entries| > 0 {
      LookupWithout(entries[1..], removed, key);
    }
  }

  /** The name `type(v).__name__` gives. */
  function TypeName(v: Json): (r: string)
    ensures |r| > 0
  {
    match v
    case JNone => "NoneType"
    case JBool(_) => "bool"
    case JInt(_) => "int"
    case JStr(_) => "str"
    case JList(_) => "list"
    case JDict(_) => "dict"
  }

  /** `str(type(v))`, as an f-string shows a type. */
  function TypeText(v: Json): string
  {
    "<class '" + TypeName(v) + "'>"
  }

  function DigitChar(d: nat): (c: char)
    requires d < 10
    ensures '0' <= c <= '9' && c as int - '0' as int == d
  {
    ('0' as int + d) as char
  }

  predicate AllDigits(s: string)
  {
    forall k :: 0 <= k < |s| ==> '0' <= s[k] <= '9'
  }

  /** The number a text of decimal digits denotes, most significant first. */
  function DigitsValue(s: string): nat
    requires AllDigits(s)
  {
    if |s| == 0 then 0
    else DigitsValue(s[..|s| - 1]) * 10 + (s[|s| - 1] as int - '0' as int)
  }

  /** The decimal digits of `n`, most significant first: they denote `n`,
      and there is no leading zero. */
  function NatText(n: nat): (r: string)
    ensures |r| > 0 && AllDigits(r)
    ensures DigitsValue(r) == n
    ensures |r| == 1 || r[0] != '0'
  {
    if n < 10 then [DigitChar(n)]
    else
      var high := NatText(n / 10);
      var r := high + [DigitChar(n % 10)];
      assert r[..|r| - 1] == high;
      r
  }

  /** `str(i)` for a Python `int`: a minus sign exactly for a negative
      value, followed by the digits of its magnitude. */
  function IntText(i: int): (r: string)
    ensures |r| > 0
    ensures (r[0] == '-') <==> i < 0
    ensures i >= 0 ==> AllDigits(r) && DigitsValue(r) == i
    ensures i < 0 ==> AllDigits(r[1..]) && DigitsValue(r[1..]) == -i
    ensures var digits := if i < 0 then r[1..] else r;
            |digits| == 1 || digits[0] != '0'
  {
    if i < 0 then
      var r := "-" + NatText(-i);
      assert r[1..] == NatText(-i);
      r
    else NatText(i)
  }

  function HexDigit(d: nat): (c: char)
    requires d < 16
  {
    "0123456789abcdef"[d]
  }

  /** The characters `repr` writes as an escape rather than as themselves:
      the ASCII controls, DEL, the C1 controls, no-break space and soft
      hyphen. The rest of the Unicode table is treated as printable. */
  predicate Unprintable(c: char)
  {
    c < ' ' || ('\U{7f}' <= c <= '\U{a0}') || c == '\U{ad}'
  }

  /** One character of a string inside `repr`, quoted with `quote`. */
  function EscapeChar(c: char, quote: char): (r: string)
    ensures |r| > 0
  {
    if c == quote || c == '\\' then ['\\', c]
    else if c == '\t' then "\\t"
    else if c == '\n' then "\\n"
    else if c == '\r' then "\\r"
    else if Unprintable(c) then
      (assert c as int < 0x100; "\\x" + [HexDigit(c as int / 16), HexDigit(c as int % 16)])
    else [c]
  }

  function Escape(s: string, quote: char): string
  {
    if |s| == 0 then "" else EscapeChar(s[0], quote) + Escape(s[1..], quote)
  }

  /** A character `repr` writes as itself under the given quote. */
  predicate Plain(c: char, quote: char)
  {
    c != quote && c != '\\' && !Unprintable(c)
  }

  /** Text without quotes, backslashes or unprintable characters is not
      changed by escaping. */
  lemma {:induction false} EscapePlain(s: string, quote: char)
    requires forall k :: 0 <= k < |s| ==> Plain(s[k], quote)
    ensures Escape(s, quote) == s
  {
    if |s| > 0 {
      EscapePlain(s[1..], quote);
      assert s == [s[0]] + s[1..];
    }
  }

  /** `repr(s)` of a `str`: single quotes unless the text holds a single
      quote and no double quote. */
  function ReprStr(s: string): (r: string)
    ensures |r| >= 2
    ensures r[0] == r[|r| - 1] && (r[0] == '\'' || r[0] == '"')
  {
    var quote := if '\'' in s && '"' !in s then '"' else '\'';
    [quote] + Escape(s, quote) + [quote]
  }

  /** Plain text is shown by `repr` between single quotes and otherwise as
      it is. */
  lemma ReprPlain(s: string)
    requires forall k :: 0 <= k < |s| ==> Plain(s[k], '\'')
    ensures ReprStr(s) == "'" + s + "'"
  {
    EscapePlain(s, '\'');
  }

  /** `repr(v)`. */
  function Repr(v: Json): string
    decreases v, 1, 0
  {
    match v
    case JNone => "None"
    case JBool(b) => if b then "True" else "False"
    case JInt(i) => IntText(i)
    case JStr(s) => ReprStr(s)
    case JList(items) => "[" + ReprItems(v, items) + "]"
    case JDict(entries) => "{" + ReprEntries(v, entries) + "}"
  }

  /** The elements of a list, each by `repr`, separated by ", ". */
  function ReprItems(parent: Json, items: seq<Json>): string
    requires forall k :: 0 <= k < |items| ==> items[k] < parent
    decreases parent, 0, |items|
  {
    if |items| == 0 then ""
    else if |items| == 1 then Repr(items[0])
    else Repr(items[0]) + ", " + ReprItems(parent, items[1..])
  }

  /** The entries of a dict as `'key': value`, separated by ", ". */
  function ReprEntries(parent: Json, entries: seq<(string, Json)>): string
    requires forall k :: 0 <= k < |entries| ==> entries[k].1 < parent
    decreases parent, 0, |entries|
  {
    if |entries| == 0 then ""
    else
      var entry := ReprStr(entries[0].0) + ": " + Repr(entries[0].1);
      if |entries| == 1 then entry else entry + ", " + ReprEntries(parent, entries[1..])
  }

  /** `str(v)`, which is what an f-string placeholder shows. */
  function Str(v: Json): (r: string)
    ensures v.JStr? ==> r == v.s
    ensures v.JNone? ==> r == "None"
  {
    if v.JStr? then v.s else Repr(v)
  }

  /** The exceptions that reach the bot's generic handler, each with the
      argument it was raised with. */
  datatype PyError =
    | TypeError(arg: string)
    | KeyError(arg: string)
    | ValueError(arg: string)
    | AttributeError(arg: string)
    | ApiConnectionError(arg: string)
    | ApiCallError(arg: string)
    | JsonDecodeError(arg: string)
  {
    /** `str(error)`: a `KeyError` shows the `repr` of its argument, every
        other kind shows the argument itself. */
    function Text(): string
    {
      if KeyError? then ReprStr(arg) else arg
    }
  }

  /** A `KeyError` raised with plain text shows that text in single quotes. */
  lemma KeyErrorTextIsQuoted(arg: string)
    requires forall k :: 0 <= k < |arg| ==> Plain(arg[k], '\'')
    ensures KeyError(arg).Text() == "'" + arg + "'"
  {
    ReprPlain(arg);
  }

  datatype Result<+T> = Ok(value: T) | Err(error: PyError)
}
