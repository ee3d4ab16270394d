/** Canonical JSON: what is hashed into the custody chain, and what a parser
    makes of it again. Text is a sequence of UTF-16 code units, as in the
    language the program is written in; strings follow section 7 of RFC 8259. */
module Json {

  type Unit = u: nat | u < 0x1_0000
  type Text = seq<Unit>

  datatype Option<+T> = None | Some(value: T)
  datatype List<+T> = Nil | Cons(head: T, tail: List<T>)
  datatype Pairs<+T> = Empty | Pair(key: Text, value: T, rest: Pairs<T>)

  /** A value as the program holds it. A finite number is known by its printed
      numeral; `Unprintable` is anything the printer throws on. */
  datatype Value =
    | VNull | VBool(b: bool) | VNumber(numeral: Text) | VString(text: Text) | VBigInt(n: int)
    | VUndefined | VUnprintable
    | VArray(items: List<Value>) | VObject(fields: Pairs<Value>)

  /** A value as JSON has it. */
  datatype Json =
    | Null | Bool(b: bool) | Number(numeral: Text) | Str(text: Text)
    | Array(items: List<Json>) | Object(fields: Pairs<Json>)

  const QUOTE: Unit := 0x22
  const BACKSLASH: Unit := 0x5C
  const COMMA: Unit := 0x2C
  const COLON: Unit := 0x3A
  const OPEN_BRACKET: Unit := 0x5B
  const CLOSE_BRACKET: Unit := 0x5D
  const OPEN_BRACE: Unit := 0x7B
  const CLOSE_BRACE: Unit := 0x7D
  const MINUS: Unit := 0x2D
  const LOWER_U: Unit := 0x75

  const NULL_TEXT: Text := [0x6E, 0x75, 0x6C, 0x6C]
  const TRUE_TEXT: Text := [0x74, 0x72, 0x75, 0x65]
  const FALSE_TEXT: Text := [0x66, 0x61, 0x6C, 0x73, 0x65]

  // ----------------------------------------------------------- strings

  predicate High(u: Unit) { 0xD800 <= u <= 0xDBFF }
  predicate Low(u: Unit) { 0xDC00 <= u <= 0xDFFF }

  function Hex(d: nat): Unit
    requires d < 16
  {
    if d < 10 then 0x30 + d else 0x61 + d - 10
  }

  function HexValue(u: Unit): Option<nat> {
    if 0x30 <= u <= 0x39 then Some(u - 0x30)
    else if 0x61 <= u <= 0x66 then Some(u - 0x61 + 10)
    else if 0x41 <= u <= 0x46 then Some(u - 0x41 + 10)
    else None
  }

  function UnicodeEscape(u: Unit): Text {
    [BACKSLASH, LOWER_U, Hex(u / 4096), Hex(u / 256 % 16), Hex(u / 16 % 16), Hex(u % 16)]
  }

  /** One unit that is not half of a surrogate pair. */
  function Escaped(u: Unit): Text {
    if u == 0x08 then [BACKSLASH, 0x62]
    else if u == 0x09 then [BACKSLASH, 0x74]
    else if u == 0x0A then [BACKSLASH, 0x6E]
    else if u == 0x0C then [BACKSLASH, 0x66]
    else if u == 0x0D then [BACKSLASH, 0x72]
    else if u == QUOTE then [BACKSLASH, QUOTE]
    else if u == BACKSLASH then [BACKSLASH, BACKSLASH]
    else if u < 0x20 || High(u) || Low(u) then UnicodeEscape(u)
    else [u]
  }

  function Body(s: Text): Text {
    if s == [] then []
    else if |s| > 1 && High(s[0]) && Low(s[1]) then [s[0], s[1]] + Body(s[2..])
    else Escaped(s[0]) + Body(s[1..])
  }

  function Quoted(s: Text): Text {
    [QUOTE] + Body(s) + [QUOTE]
  }

  // ----------------------------------------------------------- integers

  function Digits(n: nat): Text {
    (if n < 10 then [] else Digits(n / 10)) + [0x30 + n % 10]
  }

  function Decimal(n: int): Text {
    if n < 0 then [MINUS] + Digits(-n) else Digits(n)
  }

  // ----------------------------------------------------------- order of keys

  /** Code unit by code unit. */
  predicate Before(a: Text, b: Text) {
    if b == [] then false
    else if a == [] then true
    else a[0] < b[0] || (a[0] == b[0] && Before(a[1..], b[1..]))
  }

  function Insert<T>(k: Text, x: T, ps: Pairs<T>): Pairs<T> {
    match ps
    case Empty => Pair(k, x, Empty)
    case Pair(l, y, rest) => if Before(l, k) then Pair(l, y, Insert(k, x, rest)) else Pair(k, x, ps)
  }

  function Sort<T>(ps: Pairs<T>): Pairs<T> {
    match ps
    case Empty => Empty
    case Pair(k, x, rest) => Insert(k, x, Sort(rest))
  }

  // ----------------------------------------------------------- the printer

  function Join(texts: List<Text>): Text {
    match texts
    case Nil => []
    case Cons(t, Nil) => t
    case Cons(t, more) => t + [COMMA] + Join(more)
  }

  function Lines(fields: Pairs<Text>): List<Text> {
    match fields
    case Empty => Nil
    case Pair(k, t, rest) => Cons(Quoted(k) + [COLON] + t, Lines(rest))
  }

  function Canonical(v: Value): Option<Text> {
    match v
    case VNull => Some(NULL_TEXT)
    case VBool(b) => Some(if b then TRUE_TEXT else FALSE_TEXT)
    case VNumber(numeral) => Some(numeral)
    case VString(text) => Some(Quoted(text))
    case VBigInt(n) => Some(Quoted(Decimal(n)))
    case VUndefined => None
    case VUnprintable => None
    case VArray(items) =>
      var texts := ItemTexts(items);
      if texts.None? then None else Some([OPEN_BRACKET] + Join(texts.value) + [CLOSE_BRACKET])
    case VObject(fields) =>
      var texts := FieldTexts(fields);
      if texts.None? then None else Some([OPEN_BRACE] + Join(Lines(Sort(texts.value))) + [CLOSE_BRACE])
  }

  function ItemTexts(items: List<Value>): Option<List<Text>> {
    match items
    case Nil => Some(Nil)
    case Cons(x, more) =>
      var text := if x.VUndefined? then Some(NULL_TEXT) else Canonical(x);
      var texts := ItemTexts(more);
      if text.None? || texts.None? then None else Some(Cons(text.value, texts.value))
  }

  /** Undefined fields are dropped; each value is printed under its key. */
  function FieldTexts(fields: Pairs<Value>): Option<Pairs<Text>> {
    match fields
    case Empty => Some(Empty)
    case Pair(k, x, rest) =>
      if x.VUndefined? then FieldTexts(rest)
      else
        var text, texts := Canonical(x), FieldTexts(rest);
        if text.None? || texts.None? then None else Some(Pair(k, text.value, texts.value))
  }

  // ----------------------------------------------------------- the normal form

  /** Integers as decimal strings, undefined dropped or nulled, keys in order. */
  function Normal(v: Value): Option<Json> {
    match v
    case VNull => Some(Null)
    case VBool(b) => Some(Bool(b))
    case VNumber(numeral) => Some(Number(numeral))
    case VString(text) => Some(Str(text))
    case VBigInt(n) => Some(Str(Decimal(n)))
    case VUndefined => None
    case VUnprintable => None
    case VArray(items) =>
      var js := NormalItems(items);
      if js.None? then None else Some(Array(js.value))
    case VObject(fields) =>
      var js := NormalFields(fields);
      if js.None? then None else Some(Object(Sort(js.value)))
  }

  function NormalItems(items: List<Value>): Option<List<Json>> {
    match items
    case Nil => Some(Nil)
    case Cons(x, more) =>
      var j := if x.VUndefined? then Some(Null) else Normal(x);
      var js := NormalItems(more);
      if j.None? || js.None? then None else Some(Cons(j.value, js.value))
  }

  function NormalFields(fields: Pairs<Value>): Option<Pairs<Json>> {
    match fields
    case Empty => Some(Empty)
    case Pair(k, x, rest) =>
      if x.VUndefined? then NormalFields(rest)
      else
        var j, js := Normal(x), NormalFields(rest);
        if j.None? || js.None? then None else Some(Pair(k, j.value, js.value))
  }

  /** Plain printing, in the order given. */
  function Print(j: Json): Text {
    match j
    case Null => NULL_TEXT
    case Bool(b) => if b then TRUE_TEXT else FALSE_TEXT
    case Number(numeral) => numeral
    case Str(text) => Quoted(text)
    case Array(items) => [OPEN_BRACKET] + Join(PrintItems(items)) + [CLOSE_BRACKET]
    case Object(fields) => [OPEN_BRACE] + Join(Lines(PrintFields(fields))) + [CLOSE_BRACE]
  }

  function PrintItems(items: List<Json>): List<Text> {
    match items
    case Nil => Nil
    case Cons(j, more) => Cons(Print(j), PrintItems(more))
  }

  function PrintFields(fields: Pairs<Json>): Pairs<Text> {
    match fields
    case Empty => Empty
    case Pair(k, j, rest) => Pair(k, Print(j), PrintFields(rest))
  }

  lemma {:induction false} InsertPrinted(k: Text, j: Json, fields: Pairs<Json>)
    ensures PrintFields(Insert(k, j, fields)) == Insert(k, Print(j), PrintFields(fields))
  {
    match fields
    case Empty =>
    case Pair(_, _, rest) => InsertPrinted(k, j, rest);
  }

  lemma {:induction false} SortPrinted(fields: Pairs<Json>)
    ensures PrintFields(Sort(fields)) == Sort(PrintFields(fields))
  {
    match fields
    case Empty =>
    case Pair(k, j, rest) =>
      SortPrinted(rest);
      InsertPrinted(k, j, Sort(rest));
  }

  /** The canonical text is the printed normal form, and exists exactly when that does. */
  lemma {:induction false} CanonicalIsPrinted(v: Value)
    ensures Canonical(v).Some? <==> Normal(v).Some?
    ensures Canonical(v).Some? ==> Canonical(v).value == Print(Normal(v).value)
  {
    match v
    case VArray(items) => ItemsPrinted(items);
    case VObject(fields) =>
      FieldsPrinted(fields);
      if NormalFields(fields).Some? { SortPrinted(NormalFields(fields).value); }
    case _ =>
  }

  lemma {:induction false} ItemsPrinted(items: List<Value>)
    ensures ItemTexts(items).Some? <==> NormalItems(items).Some?
    ensures ItemTexts(items).Some? ==> ItemTexts(items).value == PrintItems(NormalItems(items).value)
  {
    match items
    case Nil =>
    case Cons(x, more) =>
      CanonicalIsPrinted(x);
      ItemsPrinted(more);
  }

  lemma {:induction false} FieldsPrinted(fields: Pairs<Value>)
    ensures FieldTexts(fields).Some? <==> NormalFields(fields).Some?
    ensures FieldTexts(fields).Some? ==> FieldTexts(fields).value == PrintFields(NormalFields(fields).value)
  {
    match fields
    case Empty =>
    case Pair(_, x, rest) =>
      CanonicalIsPrinted(x);
      FieldsPrinted(rest);
  }
}
