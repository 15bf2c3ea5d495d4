/** Python values as the core sees them: decoded JSON, Python's truthiness,
    `dict.get`, `str()` of scalars, `str.format` on the configured templates,
    and the values produced by library functions that the model keeps symbolic. */
module PyValues {

  datatype Option<+T> = None | Some(value: T) {
    predicate IsFailure() { None? }
    function PropagateFailure<U>(): Option<U> requires None? { None }
    function Extract(): T requires Some? { value }
  }

  /** The Python exceptions that the modelled code raises, catches or lets escape. */
  datatype PyError =
    | AttributeError   // `.get` called on a value that is not a dict
    | TypeError        // an unhashable value tested for membership in a set
    | ValueError       // an explicit `raise ValueError(...)`
    | IndexError       // `parts[0]` on an empty list
    | JsonDecodeError  // `json.loads` on text that is not JSON
    | OSError          // the transport could not be opened
    | RequestError     // the HTTP client failed for a reason other than a timeout

  /** A Python call either returns a value or raises. */
  datatype Outcome<+T> = Returned(value: T) | Raised(error: PyError) {
    predicate IsFailure() { Raised? }
    function PropagateFailure<U>(): Outcome<U> requires Raised? { Raised(error) }
    function Extract(): T requires Returned? { value }
  }

  /** A JSON-decoded Python value. Floats are not modelled; a dict is a map,
      so the order of its keys (which only the serialised text would show) is abstracted. */
  datatype Json =
    | JNull
    | JBool(b: bool)
    | JInt(i: int)
    | JStr(s: string)
    | JList(items: seq<Json>)
    | JObj(fields: map<string, Json>)

  const EmptyDict: Json := JObj(map[])

  /** Python's `bool(v)`. */
  predicate Truthy(v: Json) {
    match v
    case JNull => false
    case JBool(b) => b
    case JInt(i) => i != 0
    case JStr(s) => s != ""
    case JList(items) => items != []
    case JObj(fields) => fields != map[]
  }

  /** Lists and dicts cannot be members of a Python set. */
  predicate Hashable(v: Json) {
    !v.JList? && !v.JObj?
  }

  /** `v.get(key, default)`; only a dict has `get`. */
  function GetOr(v: Json, key: string, default: Json): Outcome<Json> {
    if v.JObj? then Returned(if key in v.fields then v.fields[key] else default)
    else Raised(AttributeError)
  }

  /** `v.get(key)`, whose default is None. */
  function Get(v: Json, key: string): Outcome<Json> {
    GetOr(v, key, JNull)
  }

  /** A value that some library function produced, kept symbolic where its
      exact text is the library's business. */
  datatype Cell =
    | Plain(v: Json)                                       // the value itself (None is Plain(JNull))
    | Dumps(dumped: Json)                                  // json.dumps(dumped)
    | Repr(shown: Json)                                    // str(shown)
    | Formatted(template: string, args: map<string, Json>) // template.format(**args)
    | UtcIso(seconds: int)                                 // datetime.fromtimestamp(seconds, UTC).isoformat() + "Z"

  const NoneCell: Cell := Plain(JNull)

  // ---------------------------------------------------------------------------
  // Decimal text of integers, as Python's str() writes it.

  predicate IsDigit(c: char) { '0' <= c <= '9' }

  function DigitChar(d: nat): (c: char)
    requires d < 10
    ensures IsDigit(c)
  {
    ('0' as int + d) as char
  }

  function NatToString(n: nat): (s: string)
    ensures s != [] && forall k :: 0 <= k < |s| ==> IsDigit(s[k])
    decreases n
  {
    if n < 10 then [DigitChar(n)] else NatToString(n / 10) + [DigitChar(n % 10)]
  }

  function IntToString(i: int): (s: string)
    ensures s != []
  {
    if i < 0 then "-" + NatToString(-i) else NatToString(i)
  }

  /** The value of a string of decimal digits. */
  function ParseNat(s: string): nat
    decreases |s|
  {
    if s == [] then 0
    else 10 * ParseNat(s[..|s| - 1]) + (if IsDigit(s[|s| - 1]) then s[|s| - 1] as int - '0' as int else 0)
  }

  function ParseInt(s: string): int {
    if s != [] && s[0] == '-' then -(ParseNat(s[1..]) as int) else ParseNat(s)
  }

  lemma {:induction false} NatToStringRoundTrip(n: nat)
    ensures ParseNat(NatToString(n)) == n
    decreases n
  {
    var s := NatToString(n);
    if n < 10 {
      assert s[..|s| - 1] == [];
    } else {
      NatToStringRoundTrip(n / 10);
      assert s[..|s| - 1] == NatToString(n / 10);
    }
  }

  /** The decimal text determines the integer: `str()` of an int is injective. */
  lemma IntToStringRoundTrip(i: int)
    ensures ParseInt(IntToString(i)) == i
  {
    if i < 0 {
      NatToStringRoundTrip(-i);
      assert IntToString(i)[1..] == NatToString(-i);
    } else {
      NatToStringRoundTrip(i);
      assert IsDigit(NatToString(i)[0]);
    }
  }

  /** `str(v)` for the scalar values; None for a list or dict, whose text
      (Python's `repr` of its items) the model does not compute. */
  function Str(v: Json): Option<string> {
    match v
    case JNull => Some("None")
    case JBool(b) => Some(if b then "True" else "False")
    case JInt(i) => Some(IntToString(i))
    case JStr(s) => Some(s)
    case _ => None
  }

  // ---------------------------------------------------------------------------
  // str.format with plain `{name}` fields, as used by the content templates.

  /** The index of the first '}' at or after `from`. */
  function FieldEnd(t: string, from: nat): (j: Option<nat>)
    ensures j.Some? ==> from <= j.value < |t| && t[j.value] == '}'
    ensures j.Some? ==> forall k :: from <= k < j.value ==> t[k] != '}'
    ensures j.None? ==> forall k :: from <= k < |t| ==> t[k] != '}'
    decreases |t| - from
  {
    if from >= |t| then None
    else if t[from] == '}' then Some(from)
    else FieldEnd(t, from + 1)
  }

  /** The field names of a template, in order of appearance. */
  function Placeholders(t: string): seq<string>
    decreases |t|
  {
    if t == [] then []
    else if t[0] == '{' then
      match FieldEnd(t, 1)
      case None => []
      case Some(j) => [t[1..j]] + Placeholders(t[j + 1..])
    else Placeholders(t[1..])
  }

  /** `t.format(**args)`: None where Python raises (a field without a value,
      an unclosed field). Brace escapes (`{{`), format specs (`{x:>3}`, whose
      name here would be `x:>3`) and a lone `}` outside a field (copied here,
      where Python raises ValueError) do not occur in any template of the
      system and are not modelled. */
  function Format(t: string, args: map<string, string>): (r: Option<string>)
    decreases |t|
  {
    if t == [] then Some([])
    else if t[0] == '{' then
      match FieldEnd(t, 1)
      case None => None
      case Some(j) =>
        if t[1..j] in args then
          var rest :- Format(t[j + 1..], args);
          Some(args[t[1..j]] + rest)
        else None
    else
      var rest :- Format(t[1..], args);
      Some([t[0]] + rest)
  }

  /** Every name of `names` has a value in `args`. */
  predicate AllBound(names: seq<string>, args: map<string, string>) {
    forall k :: 0 <= k < |names| ==> names[k] in args
  }

  /** Formatting succeeds exactly when every field of the template has a value
      and every field is closed. */
  lemma {:induction false} FormatDefinedIffFieldsBound(t: string, args: map<string, string>)
    ensures Format(t, args).Some? <==> AllBound(Placeholders(t), args) && !UnclosedField(t)
    decreases |t|
  {
    if t == [] {
    } else if t[0] == '{' {
      match FieldEnd(t, 1)
      case None =>
      case Some(j) =>
        FormatDefinedIffFieldsBound(t[j + 1..], args);
        var ps := Placeholders(t[j + 1..]);
        assert Placeholders(t) == [t[1..j]] + ps;
        assert AllBound([t[1..j]] + ps, args) <==> t[1..j] in args && AllBound(ps, args) by {
          var qs := [t[1..j]] + ps;
          assert forall k :: 0 <= k < |ps| ==> qs[k + 1] == ps[k];
        }
    } else {
      FormatDefinedIffFieldsBound(t[1..], args);
    }
  }

  /** Some '{' of the template has no closing '}'. */
  predicate UnclosedField(t: string)
    decreases |t|
  {
    if t == [] then false
    else if t[0] == '{' then
      match FieldEnd(t, 1)
      case None => true
      case Some(j) => UnclosedField(t[j + 1..])
    else UnclosedField(t[1..])
  }

  /** The text of `str(v)` for every argument, when all are scalars. */
  function StrArgs(args: map<string, Json>): Option<map<string, string>> {
    if forall k | k in args :: Str(args[k]).Some? then
      Some(map k | k in args :: Str(args[k]).value)
    else None
  }

  /** The text of a `Formatted` cell whose arguments are scalars. */
  function Render(c: Cell): Option<string> {
    match c
    case Formatted(t, args) =>
      var texts :- StrArgs(args);
      Format(t, texts)
    case Plain(JStr(s)) => Some(s)
    case _ => None
  }
}
