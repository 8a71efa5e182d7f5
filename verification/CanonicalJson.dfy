/**
 Canonical JSON text: the printer with sorted keys that every identity check of
 the resident loop compares, a parser for the texts it prints, and the proof
 that two data values have the same text exactly when they mean the same JSON
 value.

 Strings are sequences of UTF-16 code units, numbers are integers, and an
 object is the list of its own members in enumeration order.
 */
module CanonicalJson {
  import opened Sequences
  import opened Sorting

  type CodeUnit = x: int | 0 <= x < 0x1_0000

  type Text = seq<CodeUnit>

  datatype Option<+T> = None | Some(value: T)

  /** A JSON value: the order in which an object lists its members is not part of it. */
  datatype Value =
    | Null
    | Bool(flag: bool)
    | Num(number: int)
    | Str(text: Text)
    | Arr(items: seq<Value>)
    | Obj(fields: map<Text, Value>)

  /** A frozen plain-data value as the program holds it. */
  datatype Data =
    | DNull
    | DBool(flag: bool)
    | DNum(number: int)
    | DStr(text: Text)
    | DArr(items: seq<Data>)
    | DObj(members: seq<Member>)

  datatype Member = Member(key: Text, value: Data)

  // ---------- The meaning of plain data ----------

  function Keys(ms: seq<Member>): (ks: seq<Text>)
    ensures |ks| == |ms|
    ensures forall i | 0 <= i < |ms| :: ks[i] == ms[i].key
  {
    seq(|ms|, i requires 0 <= i < |ms| => ms[i].key)
  }

  /** Own property names of one object are distinct; this is all that plain data must satisfy. */
  predicate WellFormed(d: Data) {
    match d
    case DArr(items) => forall x | x in items :: WellFormed(x)
    case DObj(ms) => Distinct(Keys(ms)) && forall m | m in ms :: WellFormed(m.value)
    case _ => true
  }

  function IndexOf(ms: seq<Member>, key: Text): (i: nat)
    requires key in Keys(ms)
    ensures i < |ms| && ms[i].key == key
  {
    if ms[0].key == key then 0
    else
      assert key in Keys(ms[1..]) by {
        var j :| 0 <= j < |Keys(ms)| && Keys(ms)[j] == key;
        assert Keys(ms[1..])[j - 1] == key;
      }
      1 + IndexOf(ms[1..], key)
  }

  function Meaning(d: Data): Value {
    match d
    case DNull => Null
    case DBool(b) => Bool(b)
    case DNum(n) => Num(n)
    case DStr(t) => Str(t)
    case DArr(items) => Arr(seq(|items|, i requires 0 <= i < |items| => Meaning(items[i])))
    case DObj(ms) => Obj(map k | k in Keys(ms) :: Meaning(ms[IndexOf(ms, k)].value))
  }

  // ---------- Sorted keys ----------

  /** Code-unit order, the default order of Array.prototype.sort on strings. */
  predicate Less(a: Text, b: Text) {
    if b == [] then false
    else if a == [] then true
    else a[0] < b[0] || (a[0] == b[0] && Less(a[1..], b[1..]))
  }

  const KEY_ORDER: (Text, Text) -> bool := (a: Text, b: Text) => !Less(b, a)

  function SortKeys(s: seq<Text>): (r: seq<Text>)
    ensures multiset(r) == multiset(s)
  {
    StableSortElements(KEY_ORDER, s);
    StableSort(KEY_ORDER, s)
  }

  // ---------- The printer ----------

  const QUOTE: CodeUnit := 0x22
  const BACKSLASH: CodeUnit := 0x5C
  const COMMA: CodeUnit := 0x2C
  const COLON: CodeUnit := 0x3A
  const OPEN_BRACKET: CodeUnit := 0x5B
  const CLOSE_BRACKET: CodeUnit := 0x5D
  const OPEN_BRACE: CodeUnit := 0x7B
  const CLOSE_BRACE: CodeUnit := 0x7D
  const MINUS: CodeUnit := 0x2D
  const NULL_TEXT: Text := [0x6E, 0x75, 0x6C, 0x6C]
  const TRUE_TEXT: Text := [0x74, 0x72, 0x75, 0x65]
  const FALSE_TEXT: Text := [0x66, 0x61, 0x6C, 0x73, 0x65]

  predicate IsLead(c: CodeUnit) { 0xD800 <= c < 0xDC00 }

  predicate IsTrail(c: CodeUnit) { 0xDC00 <= c < 0xE000 }

  function HexDigit(d: int): CodeUnit
    requires 0 <= d < 16
  {
    if d < 10 then 0x30 + d else 0x57 + d
  }

  function UnicodeEscape(c: CodeUnit): Text {
    [BACKSLASH, 0x75, HexDigit(c / 4096), HexDigit(c / 256 % 16), HexDigit(c / 16 % 16), HexDigit(c % 16)]
  }

  /** QuoteJSONString (section 25.5.2 of ECMA-262) on a unit that is not part of a surrogate pair. */
  function EscapeUnit(c: CodeUnit): Text {
    if c == 0x08 then [BACKSLASH, 0x62]
    else if c == 0x09 then [BACKSLASH, 0x74]
    else if c == 0x0A then [BACKSLASH, 0x6E]
    else if c == 0x0C then [BACKSLASH, 0x66]
    else if c == 0x0D then [BACKSLASH, 0x72]
    else if c == QUOTE then [BACKSLASH, QUOTE]
    else if c == BACKSLASH then [BACKSLASH, BACKSLASH]
    else if c < 0x20 || IsLead(c) || IsTrail(c) then UnicodeEscape(c)
    else [c]
  }

  function Escape(t: Text): Text {
    if t == [] then []
    else if |t| > 1 && IsLead(t[0]) && IsTrail(t[1]) then [t[0], t[1]] + Escape(t[2..])
    else EscapeUnit(t[0]) + Escape(t[1..])
  }

  function Quote(t: Text): Text {
    [QUOTE] + Escape(t) + [QUOTE]
  }

  function Decimal(n: nat): (r: Text)
    ensures r != [] && IsDigit(r[0])
  {
    if n < 10 then [0x30 + n] else Decimal(n / 10) + [0x30 + n % 10]
  }

  function Number(n: int): Text {
    if n < 0 then [MINUS] + Decimal(-n) else Decimal(n)
  }

  function Canonical(d: Data): Text
    decreases d, 0
  {
    match d
    case DNull => NULL_TEXT
    case DBool(b) => if b then TRUE_TEXT else FALSE_TEXT
    case DNum(n) => Number(n)
    case DStr(t) => Quote(t)
    case DArr(items) => [OPEN_BRACKET] + CanonicalItems(items) + [CLOSE_BRACKET]
    case DObj(ms) =>
      assert forall k | k in SortKeys(Keys(ms)) :: k in multiset(SortKeys(Keys(ms)));
      [OPEN_BRACE] + CanonicalMembers(ms, SortKeys(Keys(ms))) + [CLOSE_BRACE]
  }

  function CanonicalItems(items: seq<Data>): Text
    decreases items, 0
  {
    if items == [] then []
    else if |items| == 1 then Canonical(items[0])
    else Canonical(items[0]) + [COMMA] + CanonicalItems(items[1..])
  }

  function CanonicalMembers(ms: seq<Member>, keys: seq<Text>): Text
    requires forall k | k in keys :: k in Keys(ms)
    decreases ms, |keys|
  {
    if keys == [] then []
    else
      var member := Quote(keys[0]) + [COLON] + Canonical(ms[IndexOf(ms, keys[0])].value);
      if |keys| == 1 then member
      else member + [COMMA] + CanonicalMembers(ms, keys[1..])
  }

  // ---------- The parser ----------

  predicate IsDigit(c: CodeUnit) { 0x30 <= c < 0x3A }

  function HexValue(c: CodeUnit): Option<int> {
    if IsDigit(c) then Some(c - 0x30)
    else if 0x61 <= c < 0x67 then Some(c - 0x57)
    else None
  }

  /** One unit of a string body and what follows it; the closing quote is not a unit. */
  function ReadUnit(s: Text): (r: Option<(CodeUnit, Text)>)
    ensures r.Some? ==> |r.value.1| < |s|
  {
    if s == [] || s[0] == QUOTE || s[0] < 0x20 then None
    else if s[0] != BACKSLASH then Some((s[0], s[1..]))
    else if |s| < 2 then None
    else if s[1] == 0x62 then Some((0x08, s[2..]))
    else if s[1] == 0x74 then Some((0x09, s[2..]))
    else if s[1] == 0x6E then Some((0x0A, s[2..]))
    else if s[1] == 0x66 then Some((0x0C, s[2..]))
    else if s[1] == 0x72 then Some((0x0D, s[2..]))
    else if s[1] == QUOTE || s[1] == BACKSLASH then Some((s[1], s[2..]))
    else if s[1] != 0x75 || |s| < 6 then None
    else
      match (HexValue(s[2]), HexValue(s[3]), HexValue(s[4]), HexValue(s[5]))
      case (Some(a), Some(b), Some(c), Some(d)) => Some((a * 4096 + b * 256 + c * 16 + d, s[6..]))
      case _ => None
  }

  /** The rest of a string whose opening quote has been read. */
  function ReadString(s: Text): (r: Option<(Text, Text)>)
    ensures r.Some? ==> |r.value.1| < |s|
    decreases |s|
  {
    if s != [] && s[0] == QUOTE then Some(([], s[1..]))
    else
      match ReadUnit(s)
      case None => None
      case Some((c, after)) =>
        match ReadString(after)
        case None => None
        case Some((t, rest)) => Some(([c] + t, rest))
  }

  function ReadDigits(s: Text, value: nat): (r: (nat, Text))
    ensures |r.1| <= |s|
    decreases |s|
  {
    if s != [] && IsDigit(s[0]) then ReadDigits(s[1..], value * 10 + (s[0] - 0x30)) else (value, s)
  }

  function ParseValue(s: Text): (r: Option<(Value, Text)>)
    ensures r.Some? ==> |r.value.1| < |s|
    decreases |s|, 1
  {
    if s == [] then None
    else if s[0] == QUOTE then
      match ReadString(s[1..])
      case None => None
      case Some((t, rest)) => Some((Str(t), rest))
    else if IsDigit(s[0]) then
      var (n, rest) := ReadDigits(s[1..], s[0] - 0x30);
      Some((Num(n), rest))
    else if s[0] == MINUS && |s| > 1 && IsDigit(s[1]) then
      var (n, rest) := ReadDigits(s[2..], s[1] - 0x30);
      Some((Num(0 - n), rest))
    else if s[0] == OPEN_BRACKET then
      if |s| > 1 && s[1] == CLOSE_BRACKET then Some((Arr([]), s[2..]))
      else
        match ParseItems(s[1..])
        case None => None
        case Some((items, rest)) => Some((Arr(items), rest))
    else if s[0] == OPEN_BRACE then
      if |s| > 1 && s[1] == CLOSE_BRACE then Some((Obj(map[]), s[2..]))
      else
        match ParseMembers(s[1..])
        case None => None
        case Some((fields, rest)) => Some((Obj(fields), rest))
    else if NULL_TEXT <= s then Some((Null, s[4..]))
    else if TRUE_TEXT <= s then Some((Bool(true), s[4..]))
    else if FALSE_TEXT <= s then Some((Bool(false), s[5..]))
    else None
  }

  /** One or more values separated by commas, up to and including the closing bracket. */
  function ParseItems(s: Text): (r: Option<(seq<Value>, Text)>)
    ensures r.Some? ==> |r.value.1| < |s|
    decreases |s|, 2
  {
    match ParseValue(s)
    case None => None
    case Some((v, rest)) =>
      if rest == [] then None
      else if rest[0] == CLOSE_BRACKET then Some(([v], rest[1..]))
      else if rest[0] != COMMA then None
      else
        match ParseItems(rest[1..])
        case None => None
        case Some((vs, after)) => Some(([v] + vs, after))
  }

  /** One or more members separated by commas, up to and including the closing brace; a repeated key is refused. */
  function ParseMembers(s: Text): (r: Option<(map<Text, Value>, Text)>)
    ensures r.Some? ==> |r.value.1| < |s|
    decreases |s|, 2
  {
    if s == [] || s[0] != QUOTE then None
    else
      match ReadString(s[1..])
      case None => None
      case Some((key, colon)) =>
        if colon == [] || colon[0] != COLON then None
        else
          match ParseValue(colon[1..])
          case None => None
          case Some((v, rest)) =>
            if rest == [] then None
            else if rest[0] == CLOSE_BRACE then Some((map[key := v], rest[1..]))
            else if rest[0] != COMMA then None
            else
              match ParseMembers(rest[1..])
              case None => None
              case Some((fields, after)) =>
                if key in fields then None else Some((fields[key := v], after))
  }

}
