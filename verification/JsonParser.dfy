/** A parser for compact JSON texts (no insignificant whitespace), and the proof
    that it undoes the canonical printer up to the stated normal form. */
module JsonParser {
  import opened Json

  datatype Parsed<+T> = Bad | Got(value: T, rest: Text)

  // ----------------------------------------------------------- numerals

  predicate IsDigit(u: Unit) { 0x30 <= u <= 0x39 }

  predicate NumeralUnit(u: Unit) {
    IsDigit(u) || u == MINUS || u == 0x2B || u == 0x2E || u == 0x65 || u == 0x45
  }

  function Run(s: Text, digitsOnly: bool): (n: nat)
    ensures n <= |s|
    ensures forall i :: 0 <= i < n ==> NumeralUnit(s[i]) && (digitsOnly ==> IsDigit(s[i]))
  {
    if s == [] || !NumeralUnit(s[0]) || (digitsOnly && !IsDigit(s[0])) then 0 else 1 + Run(s[1..], digitsOnly)
  }

  predicate Exponent(s: Text) {
    s == [] ||
    ((s[0] == 0x65 || s[0] == 0x45)
     && var r := if |s| > 1 && (s[1] == 0x2B || s[1] == MINUS) then s[2..] else s[1..];
        r != [] && Run(r, true) == |r|)
  }

  predicate Fraction(s: Text) {
    if s != [] && s[0] == 0x2E then Run(s[1..], true) > 0 && Exponent(s[1 + Run(s[1..], true)..])
    else Exponent(s)
  }

  /** The number grammar of RFC 8259, section 6. */
  predicate Numeral(t: Text) {
    var s := if t != [] && t[0] == MINUS then t[1..] else t;
    var n := Run(s, true);
    n > 0 && (s[0] == 0x30 ==> n == 1) && Fraction(s[n..])
  }

  predicate Delimited(t: Text) {
    t == [] || !NumeralUnit(t[0])
  }

  lemma NumeralUnits(t: Text)
    requires Numeral(t)
    ensures t != [] && (IsDigit(t[0]) || t[0] == MINUS)
    ensures forall i :: 0 <= i < |t| ==> NumeralUnit(t[i])
  {
    var s := if t[0] == MINUS then t[1..] else t;
    FractionUnits(s[Run(s, true)..]);
    assert forall i :: Run(s, true) <= i < |s| ==> s[i] == s[Run(s, true)..][i - Run(s, true)];
  }

  lemma FractionUnits(s: Text)
    requires Fraction(s)
    ensures forall i :: 0 <= i < |s| ==> NumeralUnit(s[i])
  {
    if s != [] && s[0] == 0x2E {
      var n := 1 + Run(s[1..], true);
      ExponentUnits(s[n..]);
      assert forall i :: n <= i < |s| ==> s[i] == s[n..][i - n];
      assert forall i :: 1 <= i < n ==> s[i] == s[1..][i - 1];
    } else {
      ExponentUnits(s);
    }
  }

  lemma ExponentUnits(s: Text)
    requires Exponent(s)
    ensures forall i :: 0 <= i < |s| ==> NumeralUnit(s[i])
  {
    if s != [] {
      var k := if |s| > 1 && (s[1] == 0x2B || s[1] == MINUS) then 2 else 1;
      assert forall i :: k <= i < |s| ==> s[i] == s[k..][i - k];
    }
  }

  lemma {:induction false} RunStops(t: Text, rest: Text)
    requires Delimited(rest) && forall i :: 0 <= i < |t| ==> NumeralUnit(t[i])
    ensures Run(t + rest, false) == |t|
  {
    if t == [] {
      assert t + rest == rest;
    } else {
      RunStops(t[1..], rest);
      assert (t + rest)[1..] == t[1..] + rest;
    }
  }

  // ----------------------------------------------------------- the parser

  function ParseHex(s: Text): Option<Unit> {
    if |s| < 4 then None
    else
      var a, b, c, d := HexValue(s[0]), HexValue(s[1]), HexValue(s[2]), HexValue(s[3]);
      if a.None? || b.None? || c.None? || d.None? then None
      else
        HexBelow16(s[0]); HexBelow16(s[1]); HexBelow16(s[2]); HexBelow16(s[3]);
        Some(a.value * 4096 + b.value * 256 + c.value * 16 + d.value)
  }

  lemma HexBelow16(u: Unit)
    ensures HexValue(u).Some? ==> HexValue(u).value < 16
  {}

  function Unescape(u: Unit): Option<Unit> {
    if u == QUOTE || u == BACKSLASH || u == 0x2F then Some(u)
    else if u == 0x62 then Some(0x08)
    else if u == 0x74 then Some(0x09)
    else if u == 0x6E then Some(0x0A)
    else if u == 0x66 then Some(0x0C)
    else if u == 0x72 then Some(0x0D)
    else None
  }

  /** After the opening quote: the string, and what follows its closing quote. */
  function ParseBody(s: Text): (r: Parsed<Text>)
    ensures r.Got? ==> |r.rest| < |s|
  {
    if s == [] then Bad
    else if s[0] == QUOTE then Got([], s[1..])
    else if s[0] < 0x20 then Bad
    else if s[0] != BACKSLASH then Prefix(s[0], ParseBody(s[1..]))
    else if |s| == 1 then Bad
    else if s[1] == LOWER_U then
      match ParseHex(s[2..])
      case None => Bad
      case Some(u) => Prefix(u, ParseBody(s[6..]))
    else
      match Unescape(s[1])
      case None => Bad
      case Some(u) => Prefix(u, ParseBody(s[2..]))
  }

  function Prefix(u: Unit, r: Parsed<Text>): Parsed<Text> {
    match r
    case Bad => Bad
    case Got(t, rest) => Got([u] + t, rest)
  }

  function ParseLiteral(s: Text, literal: Text, j: Json): (r: Parsed<Json>)
    requires literal != []
    ensures r.Got? ==> |r.rest| < |s|
  {
    if literal <= s then Got(j, s[|literal|..]) else Bad
  }

  function ParseValue(s: Text): (r: Parsed<Json>)
    ensures r.Got? ==> |r.rest| < |s|
    decreases |s|, 0
  {
    if s == [] then Bad
    else if s[0] == QUOTE then
      match ParseBody(s[1..])
      case Bad => Bad
      case Got(t, rest) => Got(Str(t), rest)
    else if s[0] == OPEN_BRACKET then
      if |s| > 1 && s[1] == CLOSE_BRACKET then Got(Array(Nil), s[2..])
      else
        match ParseItems(s[1..])
        case Bad => Bad
        case Got(items, rest) => Got(Array(items), rest)
    else if s[0] == OPEN_BRACE then
      if |s| > 1 && s[1] == CLOSE_BRACE then Got(Object(Empty), s[2..])
      else
        match ParseFields(s[1..])
        case Bad => Bad
        case Got(fields, rest) => Got(Object(fields), rest)
    else if IsDigit(s[0]) || s[0] == MINUS then
      var n := Run(s, false);
      if Numeral(s[..n]) then Got(Number(s[..n]), s[n..]) else Bad
    else if s[0] == 0x6E then ParseLiteral(s, NULL_TEXT, Null)
    else if s[0] == 0x74 then ParseLiteral(s, TRUE_TEXT, Bool(true))
    else ParseLiteral(s, FALSE_TEXT, Bool(false))
  }

  function ParseItems(s: Text): (r: Parsed<List<Json>>)
    ensures r.Got? ==> |r.rest| < |s|
    decreases |s|, 1
  {
    match ParseValue(s)
    case Bad => Bad
    case Got(j, rest) =>
      if rest == [] then Bad
      else if rest[0] == CLOSE_BRACKET then Got(Cons(j, Nil), rest[1..])
      else if rest[0] != COMMA then Bad
      else
        match ParseItems(rest[1..])
        case Bad => Bad
        case Got(items, end) => Got(Cons(j, items), end)
  }

  function ParseFields(s: Text): (r: Parsed<Pairs<Json>>)
    ensures r.Got? ==> |r.rest| < |s|
    decreases |s|, 1
  {
    if s == [] || s[0] != QUOTE then Bad
    else
      match ParseBody(s[1..])
      case Bad => Bad
      case Got(k, after) =>
        if after == [] || after[0] != COLON then Bad
        else
          match ParseValue(after[1..])
          case Bad => Bad
          case Got(j, rest) =>
            if rest == [] then Bad
            else if rest[0] == CLOSE_BRACE then Got(Pair(k, j, Empty), rest[1..])
            else if rest[0] != COMMA then Bad
            else
              match ParseFields(rest[1..])
              case Bad => Bad
              case Got(fields, end) => Got(Pair(k, j, fields), end)
  }

  /** A whole text. */
  function Parse(s: Text): Option<Json> {
    match ParseValue(s)
    case Bad => None
    case Got(j, rest) => if rest == [] then Some(j) else None
  }

  // ----------------------------------------------------------- strings round trip

  lemma HexInverse(d: nat)
    requires d < 16
    ensures HexValue(Hex(d)) == Some(d)
  {}

  lemma HexDigitsOf(u: Unit)
    ensures u / 4096 < 16 && u == u / 4096 * 4096 + u / 256 % 16 * 256 + u / 16 % 16 * 16 + u % 16
  {}

  lemma EscapeInverse(u: Unit, more: Text)
    ensures ParseBody(UnicodeEscape(u) + more) == Prefix(u, ParseBody(more))
  {
    var e := UnicodeEscape(u);
    HexDigitsOf(u);
    HexInverse(u / 4096); HexInverse(u / 256 % 16); HexInverse(u / 16 % 16); HexInverse(u % 16);
    assert (e + more)[2..] == e[2..] + more;
    assert (e + more)[6..] == more;
  }

  lemma EscapedInverse(u: Unit, more: Text)
    ensures ParseBody(Escaped(u) + more) == Prefix(u, ParseBody(more))
  {
    var e := Escaped(u);
    if e == UnicodeEscape(u) {
      EscapeInverse(u, more);
    } else if |e| == 2 {
      assert (e + more)[2..] == more;
    } else {
      assert (e + more)[1..] == more;
    }
  }

  lemma PairInverse(a: Unit, b: Unit, more: Text)
    requires High(a) && Low(b)
    ensures ParseBody([a, b] + more) == Prefix(a, Prefix(b, ParseBody(more)))
  {
    assert ([a, b] + more)[1..] == [b] + more && ([b] + more)[1..] == more;
    assert ParseBody([b] + more) == Prefix(b, ParseBody(more));
  }

  lemma PairStep(s: Text, more: Text, end: Text)
    requires |s| > 1 && High(s[0]) && Low(s[1]) && ParseBody(Body(s[2..]) + end) == Got(s[2..], more)
    ensures ParseBody(Body(s) + end) == Got(s, more)
  {
    hide ParseBody;
    PairInverse(s[0], s[1], Body(s[2..]) + end);
    assert Body(s) + end == [s[0], s[1]] + (Body(s[2..]) + end);
    assert [s[0]] + ([s[1]] + s[2..]) == s;
  }

  lemma UnitStep(s: Text, more: Text, end: Text)
    requires s != [] && !(|s| > 1 && High(s[0]) && Low(s[1])) && ParseBody(Body(s[1..]) + end) == Got(s[1..], more)
    ensures ParseBody(Body(s) + end) == Got(s, more)
  {
    hide ParseBody;
    EscapedInverse(s[0], Body(s[1..]) + end);
    hide Escaped;
    assert Body(s) + end == Escaped(s[0]) + (Body(s[1..]) + end);
    assert [s[0]] + s[1..] == s;
  }

  lemma {:induction false} BodyInverse(s: Text, more: Text)
    ensures ParseBody(Body(s) + ([QUOTE] + more)) == Got(s, more)
    decreases |s|
  {
    var end := [QUOTE] + more;
    if s == [] {
      assert Body(s) + end == end && end[1..] == more;
    } else if |s| > 1 && High(s[0]) && Low(s[1]) {
      BodyInverse(s[2..], more);
      PairStep(s, more, end);
    } else {
      BodyInverse(s[1..], more);
      UnitStep(s, more, end);
    }
  }

  lemma QuotedInverse(s: Text, more: Text)
    ensures Quoted(s) + more != [] && (Quoted(s) + more)[0] == QUOTE
    ensures ParseBody((Quoted(s) + more)[1..]) == Got(s, more)
  {
    BodyInverse(s, more);
    assert (Quoted(s) + more)[1..] == Body(s) + ([QUOTE] + more);
  }

  // ----------------------------------------------------------- values round trip

  /** Every number in it is printed as a number. */
  predicate WellPrinted(j: Json) {
    match j
    case Number(numeral) => Numeral(numeral)
    case Array(items) => ItemsWellPrinted(items)
    case Object(fields) => FieldsWellPrinted(fields)
    case _ => true
  }

  predicate ItemsWellPrinted(items: List<Json>) {
    match items
    case Nil => true
    case Cons(j, more) => WellPrinted(j) && ItemsWellPrinted(more)
  }

  predicate FieldsWellPrinted(fields: Pairs<Json>) {
    match fields
    case Empty => true
    case Pair(_, j, rest) => WellPrinted(j) && FieldsWellPrinted(rest)
  }

  lemma LiteralInverse(literal: Text, j: Json, more: Text)
    requires literal != []
    ensures ParseLiteral(literal + more, literal, j) == Got(j, more)
  {
    assert (literal + more)[|literal|..] == more;
  }

  lemma NumberInverse(t: Text, more: Text)
    requires Numeral(t) && Delimited(more)
    ensures ParseValue(t + more) == Got(Number(t), more)
  {
    NumeralUnits(t);
    RunStops(t, more);
    assert (t + more)[..|t|] == t && (t + more)[|t|..] == more;
  }

  lemma FirstOf(j: Json)
    requires WellPrinted(j)
    ensures Print(j) != [] && Print(j)[0] != CLOSE_BRACKET && Print(j)[0] != CLOSE_BRACE
  {
    if j.Number? { NumeralUnits(j.numeral); }
  }

  /** Parsing undoes plain printing, wherever the text ends. */
  lemma {:induction false} PrintInverse(j: Json, more: Text)
    requires WellPrinted(j) && Delimited(more)
    ensures ParseValue(Print(j) + more) == Got(j, more)
    decreases j, 1
  {
    match j
    case Null => LiteralInverse(NULL_TEXT, j, more);
    case Bool(b) => LiteralInverse(if b then TRUE_TEXT else FALSE_TEXT, j, more);
    case Number(numeral) => NumberInverse(numeral, more);
    case Str(text) => QuotedInverse(text, more);
    case Array(items) => ArrayInverse(items, more);
    case Object(fields) => ObjectInverse(fields, more);
  }

  lemma {:induction false} ArrayInverse(items: List<Json>, more: Text)
    requires ItemsWellPrinted(items)
    ensures ParseValue(Print(Array(items)) + more) == Got(Array(items), more)
    decreases items, 1
  {
    var body := Join(PrintItems(items));
    Wrapped(OPEN_BRACKET, body, CLOSE_BRACKET, more);
    if items != Nil {
      ItemsInverse(items, more);
      ItemsStart(items);
      hide Join, PrintItems, ParseItems;
    }
  }

  lemma JoinMore(t: Text, more: List<Text>, end: Text)
    requires more != Nil
    ensures Join(Cons(t, more)) + end == t + ([COMMA] + (Join(more) + end))
  {}

  lemma {:induction false} ItemsInverse(items: List<Json>, more: Text)
    requires items != Nil && ItemsWellPrinted(items)
    ensures ParseItems(Join(PrintItems(items)) + ([CLOSE_BRACKET] + more)) == Got(items, more)
    decreases items, 0
  {
    var j, rest, end := items.head, items.tail, [CLOSE_BRACKET] + more;
    if rest == Nil {
      PrintInverse(j, end);
      assert end[1..] == more;
    } else {
      var tail := Join(PrintItems(rest)) + end;
      ItemsInverse(rest, more);
      PrintInverse(j, [COMMA] + tail);
      JoinMore(Print(j), PrintItems(rest), end);
      assert ([COMMA] + tail)[1..] == tail;
    }
  }

  /** A printed array does not look empty. */
  lemma ItemsStart(items: List<Json>)
    requires items != Nil && ItemsWellPrinted(items)
    ensures Join(PrintItems(items)) != [] && Join(PrintItems(items))[0] != CLOSE_BRACKET
  {
    FirstOf(items.head);
    if items.tail != Nil { JoinMore(Print(items.head), PrintItems(items.tail), []); }
  }

  lemma {:induction false} ObjectInverse(fields: Pairs<Json>, more: Text)
    requires FieldsWellPrinted(fields)
    ensures ParseValue(Print(Object(fields)) + more) == Got(Object(fields), more)
    decreases fields, 1
  {
    var body := Join(Lines(PrintFields(fields)));
    Wrapped(OPEN_BRACE, body, CLOSE_BRACE, more);
    if fields != Empty {
      FieldsInverse(fields, more);
      FieldsStart(fields);
      hide Join, PrintFields, Lines, ParseFields;
    }
  }

  /** A text between two brackets, taken apart again. */
  lemma Wrapped(open: Unit, body: Text, close: Unit, more: Text)
    ensures var s := [open] + body + [close] + more;
      && |s| > 1 && s[0] == open && s[1] == (if body == [] then close else body[0])
      && s[1..] == body + ([close] + more) && (body == [] ==> s[2..] == more)
  {}

  /** A printed object's text, first field first. */
  lemma FieldsText(fields: Pairs<Json>, end: Text)
    requires fields != Empty
    ensures var more := if fields.rest == Empty then end else [COMMA] + (Join(Lines(PrintFields(fields.rest))) + end);
      Join(Lines(PrintFields(fields))) + end == Quoted(fields.key) + ([COLON] + (Print(fields.value) + more))
  {
    hide Quoted, Print;
    var line := Quoted(fields.key) + [COLON] + Print(fields.value);
    if fields.rest != Empty { JoinMore(line, Lines(PrintFields(fields.rest)), end); }
  }

  lemma {:induction false} FieldsInverse(fields: Pairs<Json>, more: Text)
    requires fields != Empty && FieldsWellPrinted(fields)
    ensures ParseFields(Join(Lines(PrintFields(fields))) + ([CLOSE_BRACE] + more)) == Got(fields, more)
    decreases fields, 0
  {
    hide Quoted, Print, Join, Lines, PrintFields, ParseValue, ParseBody;
    var k, j, rest, end := fields.key, fields.value, fields.rest, [CLOSE_BRACE] + more;
    var after := if rest == Empty then end else [COMMA] + (Join(Lines(PrintFields(rest))) + end);
    FieldsText(fields, end);
    QuotedInverse(k, [COLON] + (Print(j) + after));
    assert ([COLON] + (Print(j) + after))[1..] == Print(j) + after;
    PrintInverse(j, after);
    if rest == Empty {
      assert after[1..] == more;
    } else {
      FieldsInverse(rest, more);
      assert after[1..] == Join(Lines(PrintFields(rest))) + end;
    }
  }

  lemma FieldsStart(fields: Pairs<Json>)
    requires fields != Empty
    ensures Join(Lines(PrintFields(fields))) != [] && Join(Lines(PrintFields(fields)))[0] == QUOTE
  {
    var line := Quoted(fields.key) + [COLON] + Print(fields.value);
    if fields.rest != Empty { JoinMore(line, Lines(PrintFields(fields.rest)), []); }
  }

  // ----------------------------------------------------------- the canonical text determines the normal form

  /** Numbers in a value print as numbers: what the language guarantees of its own
      number printing. */
  predicate WellNumbered(v: Value) {
    match v
    case VNumber(numeral) => Numeral(numeral)
    case VArray(items) => ItemsWellNumbered(items)
    case VObject(fields) => FieldsWellNumbered(fields)
    case _ => true
  }

  predicate ItemsWellNumbered(items: List<Value>) {
    match items
    case Nil => true
    case Cons(x, more) => WellNumbered(x) && ItemsWellNumbered(more)
  }

  predicate FieldsWellNumbered(fields: Pairs<Value>) {
    match fields
    case Empty => true
    case Pair(_, x, rest) => WellNumbered(x) && FieldsWellNumbered(rest)
  }

  lemma {:induction false} NormalWellPrinted(v: Value)
    requires WellNumbered(v) && Normal(v).Some?
    ensures WellPrinted(Normal(v).value)
  {
    match v
    case VArray(items) => NormalItemsWellPrinted(items);
    case VObject(fields) =>
      NormalFieldsWellPrinted(fields);
      SortedWellPrinted(NormalFields(fields).value);
    case _ =>
  }

  lemma {:induction false} NormalItemsWellPrinted(items: List<Value>)
    requires ItemsWellNumbered(items) && NormalItems(items).Some?
    ensures ItemsWellPrinted(NormalItems(items).value)
  {
    match items
    case Nil =>
    case Cons(x, more) =>
      if !x.VUndefined? { NormalWellPrinted(x); }
      NormalItemsWellPrinted(more);
  }

  lemma {:induction false} NormalFieldsWellPrinted(fields: Pairs<Value>)
    requires FieldsWellNumbered(fields) && NormalFields(fields).Some?
    ensures FieldsWellPrinted(NormalFields(fields).value)
  {
    match fields
    case Empty =>
    case Pair(_, x, rest) =>
      if !x.VUndefined? { NormalWellPrinted(x); }
      NormalFieldsWellPrinted(rest);
  }

  lemma {:induction false} InsertWellPrinted(k: Text, j: Json, fields: Pairs<Json>)
    requires WellPrinted(j) && FieldsWellPrinted(fields)
    ensures FieldsWellPrinted(Insert(k, j, fields))
  {
    match fields
    case Empty =>
    case Pair(_, _, rest) => InsertWellPrinted(k, j, rest);
  }

  lemma {:induction false} SortedWellPrinted(fields: Pairs<Json>)
    requires FieldsWellPrinted(fields)
    ensures FieldsWellPrinted(Sort(fields))
  {
    match fields
    case Empty =>
    case Pair(k, j, rest) =>
      SortedWellPrinted(rest);
      InsertWellPrinted(k, j, Sort(rest));
  }

  /** Canonical JSON inverts: parsing the canonical text yields the normal form. */
  lemma CanonicalInverts(v: Value)
    requires WellNumbered(v) && Canonical(v).Some?
    ensures Normal(v).Some? && Parse(Canonical(v).value) == Normal(v)
  {
    CanonicalIsPrinted(v);
    NormalWellPrinted(v);
    PrintInverse(Normal(v).value, []);
    assert Print(Normal(v).value) + [] == Print(Normal(v).value);
  }

  /** Equal texts mean equal normal forms, and the other way round. */
  lemma CanonicalIsFaithful(v: Value, w: Value)
    requires WellNumbered(v) && WellNumbered(w) && Canonical(v).Some? && Canonical(w).Some?
    ensures Canonical(v) == Canonical(w) <==> Normal(v) == Normal(w)
  {
    CanonicalInverts(v);
    CanonicalInverts(w);
    CanonicalIsPrinted(v);
    CanonicalIsPrinted(w);
  }

  // ----------------------------------------------------------- canonicalising again

  /** A stored value, back in the program's hands. */
  function Loaded(j: Json): Value {
    match j
    case Null => VNull
    case Bool(b) => VBool(b)
    case Number(numeral) => VNumber(numeral)
    case Str(text) => VString(text)
    case Array(items) => VArray(LoadedItems(items))
    case Object(fields) => VObject(LoadedFields(fields))
  }

  function LoadedItems(items: List<Json>): List<Value> {
    match items
    case Nil => Nil
    case Cons(j, more) => Cons(Loaded(j), LoadedItems(more))
  }

  function LoadedFields(fields: Pairs<Json>): Pairs<Value> {
    match fields
    case Empty => Empty
    case Pair(k, j, rest) => Pair(k, Loaded(j), LoadedFields(rest))
  }

  predicate InOrder<T>(ps: Pairs<T>) {
    match ps
    case Empty => true
    case Pair(k, _, rest) => InOrder(rest) && (rest.Pair? ==> !Before(rest.key, k))
  }

  /** Keys in order at every depth. */
  predicate Tidy(j: Json) {
    match j
    case Array(items) => ItemsTidy(items)
    case Object(fields) => InOrder(fields) && FieldsTidy(fields)
    case _ => true
  }

  predicate ItemsTidy(items: List<Json>) {
    match items
    case Nil => true
    case Cons(j, more) => Tidy(j) && ItemsTidy(more)
  }

  predicate FieldsTidy(fields: Pairs<Json>) {
    match fields
    case Empty => true
    case Pair(_, j, rest) => Tidy(j) && FieldsTidy(rest)
  }

  lemma {:induction false} BeforeIrreflexive(a: Text)
    ensures !Before(a, a)
  {
    if a != [] { BeforeIrreflexive(a[1..]); }
  }

  lemma {:induction false} BeforeAsymmetric(a: Text, b: Text)
    requires Before(a, b)
    ensures !Before(b, a)
  {
    if a != [] && b != [] && a[0] == b[0] { BeforeAsymmetric(a[1..], b[1..]); }
  }

  lemma {:induction false} BeforeTotal(a: Text, b: Text)
    ensures Before(a, b) || Before(b, a) || a == b
  {
    if a != [] && b != [] {
      BeforeTotal(a[1..], b[1..]);
      assert a == [a[0]] + a[1..] && b == [b[0]] + b[1..];
    }
  }

  lemma {:induction false} InsertInOrder<T>(k: Text, x: T, ps: Pairs<T>)
    requires InOrder(ps)
    ensures InOrder(Insert(k, x, ps))
  {
    if ps.Pair? && Before(ps.key, k) {
      InsertInOrder(k, x, ps.rest);
      BeforeAsymmetric(ps.key, k);
    }
  }

  lemma {:induction false} SortInOrder<T>(ps: Pairs<T>)
    ensures InOrder(Sort(ps))
  {
    if ps.Pair? {
      SortInOrder(ps.rest);
      InsertInOrder(ps.key, ps.value, Sort(ps.rest));
    }
  }

  lemma {:induction false} SortedStays<T>(ps: Pairs<T>)
    requires InOrder(ps)
    ensures Sort(ps) == ps
  {
    if ps.Pair? { SortedStays(ps.rest); }
  }

  lemma {:induction false} InsertTidy(k: Text, j: Json, fields: Pairs<Json>)
    requires Tidy(j) && FieldsTidy(fields)
    ensures FieldsTidy(Insert(k, j, fields))
  {
    if fields.Pair? { InsertTidy(k, j, fields.rest); }
  }

  lemma {:induction false} SortTidy(fields: Pairs<Json>)
    requires FieldsTidy(fields)
    ensures FieldsTidy(Sort(fields))
  {
    if fields.Pair? {
      SortTidy(fields.rest);
      InsertTidy(fields.key, fields.value, Sort(fields.rest));
    }
  }

  lemma {:induction false} NormalIsTidy(v: Value)
    requires Normal(v).Some?
    ensures Tidy(Normal(v).value)
  {
    match v
    case VArray(items) => NormalItemsTidy(items);
    case VObject(fields) =>
      NormalFieldsTidy(fields);
      SortTidy(NormalFields(fields).value);
      SortInOrder(NormalFields(fields).value);
    case _ =>
  }

  lemma {:induction false} NormalItemsTidy(items: List<Value>)
    requires NormalItems(items).Some?
    ensures ItemsTidy(NormalItems(items).value)
  {
    match items
    case Nil =>
    case Cons(x, more) =>
      if !x.VUndefined? { NormalIsTidy(x); }
      NormalItemsTidy(more);
  }

  lemma {:induction false} NormalFieldsTidy(fields: Pairs<Value>)
    requires NormalFields(fields).Some?
    ensures FieldsTidy(NormalFields(fields).value)
  {
    match fields
    case Empty =>
    case Pair(_, x, rest) =>
      if !x.VUndefined? { NormalIsTidy(x); }
      NormalFieldsTidy(rest);
  }

  lemma {:induction false} LoadedIsNormal(j: Json)
    requires Tidy(j)
    ensures Normal(Loaded(j)) == Some(j)
  {
    match j
    case Array(items) => LoadedItemsNormal(items);
    case Object(fields) =>
      LoadedFieldsNormal(fields);
      SortedStays(fields);
    case _ =>
  }

  lemma {:induction false} LoadedItemsNormal(items: List<Json>)
    requires ItemsTidy(items)
    ensures NormalItems(LoadedItems(items)) == Some(items)
  {
    match items
    case Nil =>
    case Cons(j, more) =>
      LoadedIsNormal(j);
      LoadedItemsNormal(more);
  }

  lemma {:induction false} LoadedFieldsNormal(fields: Pairs<Json>)
    requires FieldsTidy(fields)
    ensures NormalFields(LoadedFields(fields)) == Some(fields)
  {
    match fields
    case Empty =>
    case Pair(_, j, rest) =>
      LoadedIsNormal(j);
      LoadedFieldsNormal(rest);
  }

  /** What is stored after parsing the canonical text canonicalises to the very
      same text. */
  lemma CanonicalAgain(v: Value)
    requires WellNumbered(v) && Canonical(v).Some?
    ensures Parse(Canonical(v).value).Some?
    ensures Canonical(Loaded(Parse(Canonical(v).value).value)) == Canonical(v)
  {
    CanonicalInverts(v);
    CanonicalIsPrinted(v);
    NormalIsTidy(v);
    var j := Normal(v).value;
    LoadedIsNormal(j);
    CanonicalIsPrinted(Loaded(j));
  }

  /** The order in which an object's fields were set does not matter. */
  lemma {:induction false} InsertsCommute<T>(k: Text, x: T, l: Text, y: T, ps: Pairs<T>)
    requires k != l && InOrder(ps)
    ensures Insert(k, x, Insert(l, y, ps)) == Insert(l, y, Insert(k, x, ps))
  {
    BeforeTotal(k, l);
    if Before(k, l) { BeforeAsymmetric(k, l); } else { BeforeAsymmetric(l, k); }
    if ps.Pair? {
      if Before(ps.key, k) && Before(ps.key, l) {
        InsertsCommute(k, x, l, y, ps.rest);
      } else if Before(ps.key, k) && Before(k, l) {
        BeforeTransitive(ps.key, k, l);
      } else if Before(ps.key, l) && Before(l, k) {
        BeforeTransitive(ps.key, l, k);
      }
    }
  }

  lemma {:induction false} BeforeTransitive(a: Text, b: Text, c: Text)
    requires Before(a, b) && Before(b, c)
    ensures Before(a, c)
  {
    if a != [] && a[0] == b[0] && b[0] == c[0] { BeforeTransitive(a[1..], b[1..], c[1..]); }
  }

  predicate Listed(k: Text, x: Value, fields: Pairs<Value>) {
    fields.Pair? && ((fields.key == k && fields.value == x) || Listed(k, x, fields.rest))
  }

  predicate KeyIn(k: Text, fields: Pairs<Value>) {
    fields.Pair? && (fields.key == k || KeyIn(k, fields.rest))
  }

  /** An object's own fields: no key twice. */
  predicate DistinctKeys(fields: Pairs<Value>) {
    fields.Pair? ==> !KeyIn(fields.key, fields.rest) && DistinctKeys(fields.rest)
  }

  function WithoutKey(k: Text, fields: Pairs<Value>): Pairs<Value> {
    match fields
    case Empty => Empty
    case Pair(l, y, rest) => if l == k then rest else Pair(l, y, WithoutKey(k, rest))
  }

  /** The canonical texts of the fields, in order. */
  function Ordered(fields: Pairs<Value>): Option<Pairs<Text>> {
    match FieldTexts(fields)
    case None => None
    case Some(texts) => Some(Sort(texts))
  }

  /** One field more. */
  function Placed(k: Text, x: Value, texts: Option<Pairs<Text>>): Option<Pairs<Text>> {
    if x.VUndefined? then texts
    else if Canonical(x).None? || texts.None? then None
    else Some(Insert(k, Canonical(x).value, texts.value))
  }

  lemma OrderedPair(k: Text, x: Value, rest: Pairs<Value>)
    ensures Ordered(Pair(k, x, rest)) == Placed(k, x, Ordered(rest))
  {
    OneField(k, x, rest);
    hide Canonical;
  }

  lemma PlacedCommute(k: Text, x: Value, l: Text, y: Value, rest: Pairs<Value>)
    requires k != l
    ensures Placed(k, x, Placed(l, y, Ordered(rest))) == Placed(l, y, Placed(k, x, Ordered(rest)))
  {
    hide Canonical;
    if Canonical(x).Some? && Canonical(y).Some? && FieldTexts(rest).Some? {
      SortInOrder(FieldTexts(rest).value);
      InsertsCommute(k, Canonical(x).value, l, Canonical(y).value, Sort(FieldTexts(rest).value));
    }
  }

  /** A field may as well come first. */
  lemma {:induction false} FieldToFront(k: Text, x: Value, fields: Pairs<Value>)
    requires Listed(k, x, fields) && DistinctKeys(fields)
    ensures Ordered(fields) == Ordered(Pair(k, x, WithoutKey(k, fields)))
  {
    hide Ordered, Placed;
    var l, y, rest := fields.key, fields.value, fields.rest;
    if l == k {
      ListedKey(k, x, rest);
    } else {
      FieldToFront(k, x, rest);
      var others := WithoutKey(k, rest);
      OrderedPair(l, y, rest);
      OrderedPair(k, x, others);
      OrderedPair(l, y, others);
      OrderedPair(k, x, Pair(l, y, others));
      PlacedCommute(k, x, l, y, others);
    }
  }

  lemma {:induction false} ListedKey(k: Text, x: Value, fields: Pairs<Value>)
    ensures Listed(k, x, fields) ==> KeyIn(k, fields)
  {
    if fields.Pair? { ListedKey(k, x, fields.rest); }
  }

  lemma {:induction false} WithoutLists(k: Text, fields: Pairs<Value>, l: Text, y: Value)
    requires DistinctKeys(fields)
    ensures Listed(l, y, WithoutKey(k, fields)) <==> Listed(l, y, fields) && l != k
    ensures KeyIn(l, WithoutKey(k, fields)) ==> KeyIn(l, fields)
    ensures DistinctKeys(WithoutKey(k, fields))
  {
    if fields.Pair? {
      ListedKey(l, y, fields.rest);
      WithoutLists(k, fields.rest, l, y);
      WithoutLists(k, fields.rest, fields.key, y);
    }
  }

  /** The same fields in any order. */
  ghost predicate SameFields(fields: Pairs<Value>, others: Pairs<Value>) {
    forall k: Text, x: Value :: Listed(k, x, fields) <==> Listed(k, x, others)
  }

  /** The order in which the fields of an object were set does not matter. */
  lemma {:induction false} FieldOrderIrrelevant(fields: Pairs<Value>, others: Pairs<Value>)
    requires DistinctKeys(fields) && DistinctKeys(others) && SameFields(fields, others)
    ensures Canonical(VObject(fields)) == Canonical(VObject(others))
  {
    SameOrdered(fields, others);
  }

  lemma FirstListed(fields: Pairs<Value>)
    requires fields.Pair?
    ensures Listed(fields.key, fields.value, fields)
  {}

  lemma {:induction false} SameOrdered(fields: Pairs<Value>, others: Pairs<Value>)
    requires DistinctKeys(fields) && DistinctKeys(others) && SameFields(fields, others)
    ensures Ordered(fields) == Ordered(others)
  {
    hide Ordered, Placed;
    if fields == Empty {
      if others.Pair? { FirstListed(others); }
    } else {
      var k, x, rest := fields.key, fields.value, fields.rest;
      assert Listed(k, x, others);
      var fewer := WithoutKey(k, others);
      forall l: Text, y: Value ensures Listed(l, y, rest) <==> Listed(l, y, fewer) {
        WithoutLists(k, others, l, y);
        ListedKey(l, y, rest);
        assert Listed(l, y, fields) <==> Listed(l, y, others);
      }
      WithoutLists(k, others, k, x);
      SameOrdered(rest, fewer);
      OrderedPair(k, x, rest);
      OrderedPair(k, x, fewer);
      FieldToFront(k, x, others);
    }
  }

  lemma OneField(k: Text, x: Value, rest: Pairs<Value>)
    ensures FieldTexts(Pair(k, x, rest)) ==
            if x.VUndefined? then FieldTexts(rest)
            else if Canonical(x).None? || FieldTexts(rest).None? then None
            else Some(Pair(k, Canonical(x).value, FieldTexts(rest).value))
  {}

  // ----------------------------------------------------------- amounts through the chain

  function DigitsValue(t: Text): Option<nat> {
    if t == [] then Some(0)
    else
      var last, init := t[|t| - 1], DigitsValue(t[..|t| - 1]);
      if init.None? || !IsDigit(last) then None else Some(10 * init.value + (last - 0x30))
  }

  /** Reading an amount back from its decimal string. */
  function ToBigInt(t: Text): Option<int> {
    if t == [] then None
    else if t[0] == MINUS then
      if |t| == 1 then None
      else match DigitsValue(t[1..]) case None => None case Some(n) => (var m: int := n; Some(-m))
    else match DigitsValue(t) case None => None case Some(n) => Some(n)
  }

  lemma {:induction false} DigitsInverse(n: nat)
    ensures DigitsValue(Digits(n)) == Some(n) && Digits(n) != [] && IsDigit(Digits(n)[0])
  {
    var d := 0x30 + n % 10;
    if n < 10 {
      assert [d][..0] == [];
    } else {
      DigitsInverse(n / 10);
      assert (Digits(n / 10) + [d])[..|Digits(n / 10)|] == Digits(n / 10);
    }
  }

  /** Amounts of any size and sign survive being stored as decimal strings. */
  lemma BigIntSurvives(n: int)
    ensures Canonical(VBigInt(n)).Some?
    ensures Parse(Canonical(VBigInt(n)).value) == Some(Str(Decimal(n))) && ToBigInt(Decimal(n)) == Some(n)
  {
    CanonicalInverts(VBigInt(n));
    DigitsInverse(if n < 0 then -n else n);
    if n < 0 { assert Decimal(n)[1..] == Digits(-n); }
  }
}
