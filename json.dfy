/**
  The values a decoded JSON document holds once Python has it: `None`, `bool`,
  `int`, `float`, `str`, `list` and `dict`, with the parts of Python's value
  semantics the adapter relies on: truthiness, iteration with `for`, and `str()`.
 */
module JsonValues {
  import opened Wrappers
  import opened Dicts
  import opened Strings

  /** A float is opaque here: no arithmetic is done on it, so it is carried by its `repr` text. */
  datatype Json =
    | Null
    | Bool(b: bool)
    | Int(i: int)
    | Float(repr: string)
    | Str(s: string)
    | Arr(items: seq<Json>)
    | Obj(fields: Dict<Json>)

  /** `Optional[str]` as a JSON value. */
  function OptionalString(o: Option<string>): Json
  {
    match o
    case Some(s) => Str(s)
    case None => Null
  }

  /** Python truthiness: `None`, `False`, zero and empty containers are false. */
  predicate Truthy(j: Json)
  {
    match j
    case Null => false
    case Bool(b) => b
    case Int(i) => i != 0
    case Float(r) => r != "0.0" && r != "-0.0"
    case Str(s) => s != ""
    case Arr(xs) => xs != []
    case Obj(f) => f != []
  }

  /** An `Optional[str]` is truthy exactly when it holds a non-empty string. */
  predicate NonEmpty(o: Option<string>)
  {
    o.Some? && o.value != ""
  }

  /**
    What `for x in j` visits: the elements of a list, the keys of a dict, the
    one-character strings of a string; any other value is not iterable (a TypeError).
   */
  function Iterate(j: Json): (r: Option<seq<Json>>)
    ensures j.Arr? ==> r == Some(j.items)
    ensures j.Obj? ==> r.Some? && |r.value| == |j.fields| &&
                       forall i | 0 <= i < |j.fields| :: r.value[i] == Str(j.fields[i].0)
    ensures j.Str? ==> r.Some? && |r.value| == |j.s| &&
                       forall i | 0 <= i < |j.s| :: r.value[i] == Str([j.s[i]])
    ensures r.None? <==> !(j.Arr? || j.Obj? || j.Str?)
  {
    match j
    case Arr(xs) => Some(xs)
    case Obj(f) => Some(seq(|f|, i requires 0 <= i < |f| => Str(f[i].0)))
    case Str(s) => Some(seq(|s|, i requires 0 <= i < |s| => Str([s[i]])))
    case _ => None
  }

  /** `str(j)`. */
  function ToStr(j: Json): string
  {
    if j.Str? then j.s else Repr(j)
  }

  /** `repr(j)`, which `str()` of a list or a dict applies to the items. */
  function Repr(j: Json): string
    decreases j
  {
    match j
    case Null => "None"
    case Bool(b) => if b then "True" else "False"
    case Int(i) => IntToString(i)
    case Float(r) => r
    case Str(s) => QuoteString(s)
    case Arr(xs) =>
      "[" + JoinWith(", ", seq(|xs|, k requires 0 <= k < |xs| => Repr(xs[k]))) + "]"
    case Obj(f) =>
      "{" + JoinWith(", ", seq(|f|, k requires 0 <= k < |f| => QuoteString(f[k].0) + ": " + Repr(f[k].1))) + "}"
  }

  /** Decimal digits of an integer, with a leading `-` when negative. */
  function IntToString(i: int): string
  {
    if i < 0 then "-" + NatToString(-i) else NatToString(i)
  }

  function NatToString(n: nat): string
  {
    if n < 10 then [Digit(n)] else NatToString(n / 10) + [Digit(n % 10)]
  }

  function Digit(n: nat): char
    requires n < 16
  {
    "0123456789abcdef"[n]
  }

  /**
    A string literal as `repr` writes it: in single quotes unless the text holds
    a single quote and no double quote.
   */
  function QuoteString(s: string): string
  {
    var quote := if '\'' in s && '"' !in s then '"' else '\'';
    [quote] + EscapeAll(s, quote) + [quote]
  }

  function EscapeAll(s: string, quote: char): string
    decreases |s|
  {
    if s == [] then "" else EscapeAll(s[..|s| - 1], quote) + EscapeChar(s[|s| - 1], quote)
  }

  /** The escape `repr` uses for one character (for characters up to U+00FF). */
  function EscapeChar(c: char, quote: char): string
  {
    var n := c as int;
    if c == quote || c == '\\' then ['\\', c]
    else if c == '\t' then "\\t"
    else if c == '\n' then "\\n"
    else if c == '\r' then "\\r"
    else if n < 0x20 || (0x7f <= n <= 0xa0) || n == 0xad then "\\x" + [Digit(n / 16), Digit(n % 16)]
    else [c]
  }
}
