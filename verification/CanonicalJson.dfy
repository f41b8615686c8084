/**
 Deterministic JSON, and why two values print alike exactly when they are the
 same up to the order of members and to members that are undefined.

 Texts are UTF-16 code units; strings are quoted and escaped as in section 7 of
 RFC 8259, with lone surrogates escaped.  A finite number stands as an integer
 code, one for each number (zero and minus zero are one number), and how a code
 prints is a parameter (`Numbers`).
 */
module CanonicalJson {
  import opened Wrappers
  import opened Texts
  import opened Orders
  import opened Scores

  datatype Member = Member(key: Text, value: Json)

  datatype Json =
    | Undefined
    | Null
    | Bool(value: bool)
    | Number(code: int)
    | Str(text: Text)
    | Arr(items: seq<Json>)
    | Obj(members: seq<Member>)

  datatype Numbers = Numbers(text: int -> Text)

  const QUOTE: CodeUnit := 34
  const BACKSLASH: CodeUnit := 92
  const COMMA: CodeUnit := 44
  const COLON: CodeUnit := 58
  const OPEN_BRACKET: CodeUnit := 91
  const CLOSE_BRACKET: CodeUnit := 93
  const OPEN_BRACE: CodeUnit := 123
  const CLOSE_BRACE: CodeUnit := 125
  const NULL_TEXT: Text := [110, 117, 108, 108]
  const TRUE_TEXT: Text := [116, 114, 117, 101]
  const FALSE_TEXT: Text := [102, 97, 108, 115, 101]

  /** Digits, signs, the point and the exponent mark. */
  predicate NumberUnit(c: CodeUnit) {
    48 <= c <= 57 || c == 43 || c == 45 || c == 46 || c == 69 || c == 101
  }

  /** Numbers print as non-empty number tokens, different numbers differently. */
  ghost predicate NumbersValid(numbers: Numbers) {
    && (forall n :: numbers.text(n) != [] && forall i :: 0 <= i < |numbers.text(n)| ==> NumberUnit(numbers.text(n)[i]))
    && (forall m, n :: numbers.text(m) == numbers.text(n) ==> m == n)
  }

  function Digits(n: nat): Text {
    if n < 10 then [(48 + n) as CodeUnit] else Digits(n / 10) + [(48 + n % 10) as CodeUnit]
  }

  function Decimal(): int -> Text {
    (n: int) => if n < 0 then [45] + Digits(-n) else Digits(n)
  }

  function ValueOf(digits: Text): int {
    if digits == [] then 0 else ValueOf(digits[..|digits| - 1]) * 10 + (digits[|digits| - 1] as int - 48)
  }

  lemma {:induction false} DigitsRead(n: nat)
    ensures Digits(n) != [] && ValueOf(Digits(n)) == n
    ensures forall i :: 0 <= i < |Digits(n)| ==> 48 <= Digits(n)[i] <= 57
  {
    if n >= 10 {
      DigitsRead(n / 10);
      assert Digits(n)[..|Digits(n)| - 1] == Digits(n / 10);
    } else {
      assert Digits(n)[..0] == [];
    }
  }

  /** There are such printers: decimal notation is one. */
  lemma DecimalValid()
    ensures NumbersValid(Numbers(Decimal()))
  {
    var numbers := Numbers(Decimal());
    forall n: int
      ensures numbers.text(n) != [] && forall i :: 0 <= i < |numbers.text(n)| ==> NumberUnit(numbers.text(n)[i])
    {
      DigitsRead(if n < 0 then -n else n);
    }
    forall m: int, n: int | numbers.text(m) == numbers.text(n) ensures m == n {
      DecimalInjective(m, n);
    }
  }

  lemma DecimalInjective(m: int, n: int)
    requires Decimal()(m) == Decimal()(n)
    ensures m == n
  {
    var a, b := if m < 0 then -m else m, if n < 0 then -n else n;
    DigitsRead(a);
    DigitsRead(b);
    assert m < 0 ==> Decimal()(m)[1..] == Digits(a);
    assert n < 0 ==> Decimal()(n)[1..] == Digits(b);
    assert (m < 0) == (n < 0) by {
      assert m < 0 <==> Decimal()(m)[0] == 45;
      assert n < 0 <==> Decimal()(n)[0] == 45;
    }
  }

  // ------------------------------------------------------------------- strings

  predicate High(c: CodeUnit) { 0xD800 <= c <= 0xDBFF }

  predicate Low(c: CodeUnit) { 0xDC00 <= c <= 0xDFFF }

  function HexDigit(d: int): CodeUnit
    requires 0 <= d < 16
  {
    if d < 10 then (48 + d) as CodeUnit else (87 + d) as CodeUnit
  }

  function Hex4(c: CodeUnit): (r: Text)
    ensures |r| == 4
  {
    var n := c as int;
    [HexDigit(n / 16 / 16 / 16), HexDigit(n / 16 / 16 % 16), HexDigit(n / 16 % 16), HexDigit(n % 16)]
  }

  function EscapeUnit(c: CodeUnit): Text {
    if c == 8 then [BACKSLASH, 98]
    else if c == 9 then [BACKSLASH, 116]
    else if c == 10 then [BACKSLASH, 110]
    else if c == 12 then [BACKSLASH, 102]
    else if c == 13 then [BACKSLASH, 114]
    else if c == QUOTE || c == BACKSLASH then [BACKSLASH, c]
    else if c < 32 || High(c) || Low(c) then [BACKSLASH, 117] + Hex4(c)
    else [c]
  }

  /** A surrogate pair stays as it is; any other unit is escaped on its own. */
  function Escape(s: Text): Text
    decreases |s|
  {
    if s == [] then []
    else if |s| > 1 && High(s[0]) && Low(s[1]) then [s[0], s[1]] + Escape(s[2..])
    else EscapeUnit(s[0]) + Escape(s[1..])
  }

  function Quoted(s: Text): Text {
    [QUOTE] + Escape(s) + [QUOTE]
  }

  // ------------------------------------------------------------------- printing

  datatype Printed = Printed(key: Text, text: Text)

  function PrintedKey(): Printed -> Text {
    (p: Printed) => p.key
  }

  function Print(numbers: Numbers, v: Json): Text
    decreases v
  {
    match v
    case Undefined => NULL_TEXT
    case Null => NULL_TEXT
    case Bool(b) => if b then TRUE_TEXT else FALSE_TEXT
    case Number(n) => numbers.text(n)
    case Str(s) => Quoted(s)
    case Arr(items) => [OPEN_BRACKET] + Join(PrintItems(numbers, items)) + [CLOSE_BRACKET]
    case Obj(members) =>
      [OPEN_BRACE] + Join(Entries(SortBy(PrintMembers(numbers, members), ById(PrintedKey())))) + [CLOSE_BRACE]
  }

  function PrintItems(numbers: Numbers, items: seq<Json>): seq<Text>
    decreases items
  {
    if items == [] then [] else [Print(numbers, items[0])] + PrintItems(numbers, items[1..])
  }

  function PrintMember(numbers: Numbers, m: Member): Printed
    decreases m
  {
    Printed(m.key, Print(numbers, m.value))
  }

  /** The members that are not undefined, each with its printed value. */
  function PrintMembers(numbers: Numbers, members: seq<Member>): seq<Printed>
    decreases members
  {
    if members == [] then []
    else (if members[0].value.Undefined? then [] else [PrintMember(numbers, members[0])]) + PrintMembers(numbers, members[1..])
  }

  function Entries(printed: seq<Printed>): seq<Text> {
    if printed == [] then [] else [Quoted(printed[0].key) + [COLON] + printed[0].text] + Entries(printed[1..])
  }

  function Join(texts: seq<Text>): Text {
    if texts == [] then []
    else if |texts| == 1 then texts[0]
    else texts[0] + [COMMA] + Join(texts[1..])
  }

  // ---------------------------------------------------------------- normal form

  function Key(): Member -> Text {
    (m: Member) => m.key
  }

  /** The value with undefined read as null, undefined members dropped and members
      sorted. */
  function Normal(v: Json): Json
    decreases v
  {
    match v
    case Undefined => Null
    case Arr(items) => Arr(NormalItems(items))
    case Obj(members) => Obj(SortBy(NormalMembers(members), ById(Key())))
    case _ => v
  }

  function NormalItems(items: seq<Json>): (r: seq<Json>)
    ensures |r| == |items|
    decreases items
  {
    if items == [] then [] else [Normal(items[0])] + NormalItems(items[1..])
  }

  function NormalMember(m: Member): Member
    decreases m
  {
    Member(m.key, Normal(m.value))
  }

  function NormalMembers(members: seq<Member>): seq<Member>
    decreases members
  {
    if members == [] then []
    else (if members[0].value.Undefined? then [] else [NormalMember(members[0])]) + NormalMembers(members[1..])
  }

  /** Prints members in the order in which they stand. */
  function PrintNormal(numbers: Numbers, v: Json): Text
    decreases v
  {
    match v
    case Undefined => NULL_TEXT
    case Null => NULL_TEXT
    case Bool(b) => if b then TRUE_TEXT else FALSE_TEXT
    case Number(n) => numbers.text(n)
    case Str(s) => Quoted(s)
    case Arr(items) => [OPEN_BRACKET] + Join(NormalTexts(numbers, items)) + [CLOSE_BRACKET]
    case Obj(members) => [OPEN_BRACE] + Join(NormalEntries(numbers, members)) + [CLOSE_BRACE]
  }

  function NormalTexts(numbers: Numbers, items: seq<Json>): (r: seq<Text>)
    ensures |r| == |items|
    decreases items
  {
    if items == [] then [] else [PrintNormal(numbers, items[0])] + NormalTexts(numbers, items[1..])
  }

  function NormalEntry(numbers: Numbers, m: Member): Text
    decreases m
  {
    Quoted(m.key) + [COLON] + PrintNormal(numbers, m.value)
  }

  function NormalEntries(numbers: Numbers, members: seq<Member>): (r: seq<Text>)
    ensures |r| == |members|
    decreases members
  {
    if members == [] then [] else [NormalEntry(numbers, members[0])] + NormalEntries(numbers, members[1..])
  }

  function AsPrinted(numbers: Numbers): Member -> Printed {
    (m: Member) => Printed(m.key, PrintNormal(numbers, m.value))
  }

  lemma {:induction false} InsertCommutes(numbers: Numbers, m: Member, sorted: seq<Member>)
    ensures Insert(AsPrinted(numbers)(m), Map(AsPrinted(numbers), sorted), ById(PrintedKey()))
            == Map(AsPrinted(numbers), Insert(m, sorted, ById(Key())))
  {
    var f := AsPrinted(numbers);
    if sorted == [] {
    } else if ById(Key())(m, sorted[0]) {
      assert Map(f, [m] + sorted) == [f(m)] + Map(f, sorted);
    } else {
      assert Map(f, sorted)[1..] == Map(f, sorted[1..]);
      InsertCommutes(numbers, m, sorted[1..]);
      assert Map(f, [sorted[0]] + Insert(m, sorted[1..], ById(Key())))
          == [f(sorted[0])] + Map(f, Insert(m, sorted[1..], ById(Key())));
    }
  }

  /** Sorting printed members is printing sorted members. */
  lemma {:induction false} SortCommutes(numbers: Numbers, members: seq<Member>)
    ensures SortBy(Map(AsPrinted(numbers), members), ById(PrintedKey()))
            == Map(AsPrinted(numbers), SortBy(members, ById(Key())))
  {
    if members != [] {
      assert Map(AsPrinted(numbers), members)[1..] == Map(AsPrinted(numbers), members[1..]);
      SortCommutes(numbers, members[1..]);
      InsertCommutes(numbers, members[0], SortBy(members[1..], ById(Key())));
    }
  }

  lemma {:induction false} EntriesOfPrinted(numbers: Numbers, members: seq<Member>)
    ensures Entries(Map(AsPrinted(numbers), members)) == NormalEntries(numbers, members)
  {
    if members != [] {
      assert Map(AsPrinted(numbers), members)[1..] == Map(AsPrinted(numbers), members[1..]);
      EntriesOfPrinted(numbers, members[1..]);
    }
  }

  /** A value prints as its normal form does. */
  lemma {:induction false} PrintsNormal(numbers: Numbers, v: Json)
    ensures Print(numbers, v) == PrintNormal(numbers, Normal(v))
    decreases v
  {
    match v
    case Arr(items) => ItemsPrintNormal(numbers, items);
    case Obj(members) =>
      MembersPrintNormal(numbers, members);
      SortCommutes(numbers, NormalMembers(members));
      EntriesOfPrinted(numbers, SortBy(NormalMembers(members), ById(Key())));
    case _ =>
  }

  lemma {:induction false} ItemsPrintNormal(numbers: Numbers, items: seq<Json>)
    ensures PrintItems(numbers, items) == NormalTexts(numbers, NormalItems(items))
    decreases items
  {
    if items != [] {
      PrintsNormal(numbers, items[0]);
      ItemsPrintNormal(numbers, items[1..]);
      assert NormalItems(items)[1..] == NormalItems(items[1..]);
    }
  }

  lemma {:induction false} MemberPrintsNormal(numbers: Numbers, m: Member)
    ensures PrintMember(numbers, m) == AsPrinted(numbers)(NormalMember(m))
    decreases m
  {
    PrintsNormal(numbers, m.value);
  }

  lemma {:induction false} MembersPrintNormal(numbers: Numbers, members: seq<Member>)
    ensures PrintMembers(numbers, members) == Map(AsPrinted(numbers), NormalMembers(members))
    decreases members
  {
    if members != [] {
      MemberPrintsNormal(numbers, members[0]);
      MembersPrintNormal(numbers, members[1..]);
      var f := AsPrinted(numbers);
      var rest := NormalMembers(members[1..]);
      assert Map(f, [NormalMember(members[0])] + rest) == [f(NormalMember(members[0]))] + Map(f, rest);
    }
  }

  // --------------------------------------------------------------------- parsing

  datatype Parsed<T> = Parsed(value: T, rest: Text)

  function UnhexDigit(c: CodeUnit): Option<int> {
    if 48 <= c <= 57 then Some(c as int - 48) else if 97 <= c <= 102 then Some(c as int - 87) else None
  }

  /** The unit behind four hexadecimal digits. */
  function Unhex4(t: Text): Option<CodeUnit> {
    if |t| < 4 then None
    else
      var a, b, c, d := UnhexDigit(t[0]), UnhexDigit(t[1]), UnhexDigit(t[2]), UnhexDigit(t[3]);
      if a.None? || b.None? || c.None? || d.None? then None
      else
        var n := a.value * 4096 + b.value * 256 + c.value * 16 + d.value;
        if 0 <= n < 0x10000 then Some(n as CodeUnit) else None
  }

  function UnescapeUnit(c: CodeUnit): Option<CodeUnit> {
    if c == 98 then Some(8)
    else if c == 116 then Some(9)
    else if c == 110 then Some(10)
    else if c == 102 then Some(12)
    else if c == 114 then Some(13)
    else if c == QUOTE || c == BACKSLASH then Some(c)
    else None
  }

  function Prepend(c: CodeUnit, r: Option<Parsed<Text>>): Option<Parsed<Text>> {
    if r.None? then None else Some(Parsed([c] + r.value.value, r.value.rest))
  }

  /** Reads a string up to its closing quote. */
  function ParseString(t: Text): (r: Option<Parsed<Text>>)
    ensures r.Some? ==> |r.value.rest| < |t|
    decreases |t|
  {
    if t == [] then None
    else if t[0] == QUOTE then Some(Parsed([], t[1..]))
    else if t[0] != BACKSLASH then Prepend(t[0], ParseString(t[1..]))
    else if |t| < 2 then None
    else if t[1] == 117 then
      var u := Unhex4(t[2..]);
      if u.None? then None else Prepend(u.value, ParseString(t[6..]))
    else
      var u := UnescapeUnit(t[1]);
      if u.None? then None else Prepend(u.value, ParseString(t[2..]))
  }

  function NumberLength(t: Text): (n: nat)
    ensures n <= |t|
  {
    if t == [] || !NumberUnit(t[0]) then 0 else 1 + NumberLength(t[1..])
  }

  ghost function ParseNumber(numbers: Numbers, t: Text): (r: Option<Parsed<Json>>)
    ensures r.Some? ==> |r.value.rest| < |t|
  {
    var k := NumberLength(t);
    if k > 0 && exists n :: numbers.text(n) == t[..k] then
      var n :| numbers.text(n) == t[..k];
      Some(Parsed(Number(n), t[k..]))
    else None
  }

  ghost function ParseValue(numbers: Numbers, t: Text): (r: Option<Parsed<Json>>)
    ensures r.Some? ==> |r.value.rest| < |t|
    decreases |t|, 0
  {
    if t == [] then None
    else if t[0] == QUOTE then
      var s := ParseString(t[1..]);
      if s.None? then None else Some(Parsed(Str(s.value.value), s.value.rest))
    else if t[0] == OPEN_BRACKET then
      if |t| > 1 && t[1] == CLOSE_BRACKET then Some(Parsed(Arr([]), t[2..]))
      else
        var items := ParseItems(numbers, t[1..]);
        if items.None? then None else Some(Parsed(Arr(items.value.value), items.value.rest))
    else if t[0] == OPEN_BRACE then
      if |t| > 1 && t[1] == CLOSE_BRACE then Some(Parsed(Obj([]), t[2..]))
      else
        var members := ParseMembers(numbers, t[1..]);
        if members.None? then None else Some(Parsed(Obj(members.value.value), members.value.rest))
    else if NULL_TEXT <= t then Some(Parsed(Null, t[4..]))
    else if TRUE_TEXT <= t then Some(Parsed(Bool(true), t[4..]))
    else if FALSE_TEXT <= t then Some(Parsed(Bool(false), t[5..]))
    else ParseNumber(numbers, t)
  }

  /** One or more values up to a closing bracket. */
  ghost function ParseItems(numbers: Numbers, t: Text): (r: Option<Parsed<seq<Json>>>)
    ensures r.Some? ==> |r.value.rest| < |t|
    decreases |t|, 1
  {
    var v := ParseValue(numbers, t);
    if v.None? || v.value.rest == [] then None
    else if v.value.rest[0] == CLOSE_BRACKET then Some(Parsed([v.value.value], v.value.rest[1..]))
    else if v.value.rest[0] == COMMA then
      var more := ParseItems(numbers, v.value.rest[1..]);
      if more.None? then None else Some(Parsed([v.value.value] + more.value.value, more.value.rest))
    else None
  }

  /** One or more members up to a closing brace. */
  ghost function ParseMembers(numbers: Numbers, t: Text): (r: Option<Parsed<seq<Member>>>)
    ensures r.Some? ==> |r.value.rest| < |t|
    decreases |t|, 1
  {
    if t == [] || t[0] != QUOTE then None
    else
      var k := ParseString(t[1..]);
      if k.None? || k.value.rest == [] || k.value.rest[0] != COLON then None
      else
        var v := ParseValue(numbers, k.value.rest[1..]);
        if v.None? || v.value.rest == [] then None
        else
          var m := Member(k.value.value, v.value.value);
          if v.value.rest[0] == CLOSE_BRACE then Some(Parsed([m], v.value.rest[1..]))
          else if v.value.rest[0] == COMMA then
            var more := ParseMembers(numbers, v.value.rest[1..]);
            if more.None? then None else Some(Parsed([m] + more.value.value, more.value.rest))
          else None
  }

  // ---------------------------------------------------------------- round trips

  lemma DigitRoundTrip(d: int)
    requires 0 <= d < 16
    ensures UnhexDigit(HexDigit(d)) == Some(d)
  {
  }

  lemma HexDigits(n: int) returns (a: int, b: int, c: int, d: int)
    requires 0 <= n < 0x10000
    ensures a == n / 16 / 16 / 16 && b == n / 16 / 16 % 16 && c == n / 16 % 16 && d == n % 16
    ensures 0 <= a < 16 && 0 <= b < 16 && 0 <= c < 16 && 0 <= d < 16
    ensures n == a * 4096 + b * 256 + c * 16 + d
  {
    var p := n / 16;
    var q := p / 16;
    a, b, c, d := q / 16, q % 16, p % 16, n % 16;
  }

  lemma HexRoundTrip(c: CodeUnit, rest: Text)
    ensures Unhex4(Hex4(c) + rest) == Some(c)
  {
    hide HexDigit, UnhexDigit;
    var d0, d1, d2, d3 := HexDigits(c as int);
    DigitRoundTrip(d0);
    DigitRoundTrip(d1);
    DigitRoundTrip(d2);
    DigitRoundTrip(d3);
    assert Hex4(c) == [HexDigit(d0), HexDigit(d1), HexDigit(d2), HexDigit(d3)];
  }

  lemma HexUnitRead(c: CodeUnit, rest: Text)
    ensures ParseString([BACKSLASH, 117] + Hex4(c) + rest) == Prepend(c, ParseString(rest))
  {
    HexRoundTrip(c, rest);
    hide Unhex4;
    var t := [BACKSLASH, 117] + Hex4(c) + rest;
    assert t[2..] == Hex4(c) + rest;
    assert t[6..] == rest;
  }

  lemma ShortUnitRead(c: CodeUnit, d: CodeUnit, rest: Text)
    requires UnescapeUnit(d) == Some(c)
    ensures ParseString([BACKSLASH, d] + rest) == Prepend(c, ParseString(rest))
  {
    var t := [BACKSLASH, d] + rest;
    assert t[2..] == rest;
  }

  lemma RawUnitRead(c: CodeUnit, rest: Text)
    requires c != QUOTE && c != BACKSLASH
    ensures ParseString([c] + rest) == Prepend(c, ParseString(rest))
  {
    assert ([c] + rest)[1..] == rest;
  }

  lemma UnitRoundTrip(c: CodeUnit, rest: Text)
    ensures ParseString(EscapeUnit(c) + rest) == Prepend(c, ParseString(rest))
  {
    hide ParseString, Hex4;
    if |EscapeUnit(c)| == 6 {
      HexUnitRead(c, rest);
    } else if |EscapeUnit(c)| == 2 {
      ShortUnitRead(c, EscapeUnit(c)[1], rest);
    } else {
      RawUnitRead(c, rest);
    }
  }

  lemma PairRoundTrip(s: Text, tail: Text, rest: Text)
    requires |s| > 1 && High(s[0]) && Low(s[1])
    requires ParseString(tail) == Some(Parsed(s[2..], rest))
    ensures ParseString([s[0]] + ([s[1]] + tail)) == Some(Parsed(s, rest))
  {
    RawUnitRead(s[1], tail);
    RawUnitRead(s[0], [s[1]] + tail);
    hide ParseString;
    assert s == [s[0]] + ([s[1]] + s[2..]);
  }

  lemma EndRead(rest: Text)
    ensures ParseString([QUOTE] + rest) == Some(Parsed([], rest))
  {
    assert ([QUOTE] + rest)[1..] == rest;
  }

  lemma UnitThen(s: Text, tail: Text, rest: Text)
    requires s != [] && ParseString(tail) == Some(Parsed(s[1..], rest))
    ensures ParseString(EscapeUnit(s[0]) + tail) == Some(Parsed(s, rest))
  {
    hide ParseString, EscapeUnit;
    UnitRoundTrip(s[0], tail);
    assert s == [s[0]] + s[1..];
  }

  lemma EscapePair(s: Text, ending: Text)
    requires |s| > 1 && High(s[0]) && Low(s[1])
    ensures Escape(s) + ending == [s[0]] + ([s[1]] + (Escape(s[2..]) + ending))
  {
    hide EscapeUnit;
  }

  lemma EscapeOne(s: Text, ending: Text)
    requires s != [] && !(|s| > 1 && High(s[0]) && Low(s[1]))
    ensures Escape(s) + ending == EscapeUnit(s[0]) + (Escape(s[1..]) + ending)
  {
    hide EscapeUnit;
  }

  /** Reading back a quoted string gives the string and what followed it. */
  lemma {:induction false} StringRoundTrip(s: Text, rest: Text)
    ensures ParseString(Escape(s) + ([QUOTE] + rest)) == Some(Parsed(s, rest))
    decreases |s|
  {
    var ending := [QUOTE] + rest;
    if s == [] {
      assert Escape(s) + ending == ending;
      EndRead(rest);
    } else {
      hide ParseString, EscapeUnit, Escape, High, Low;
      if |s| > 1 && High(s[0]) && Low(s[1]) {
        StringRoundTrip(s[2..], rest);
        PairRoundTrip(s, Escape(s[2..]) + ending, rest);
        EscapePair(s, ending);
      } else {
        StringRoundTrip(s[1..], rest);
        UnitThen(s, Escape(s[1..]) + ending, rest);
        EscapeOne(s, ending);
      }
    }
  }

  /** A text that a number token cannot run on into. */
  predicate Stops(rest: Text) {
    rest == [] || !NumberUnit(rest[0])
  }

  lemma {:induction false} NumberLengthIs(token: Text, rest: Text)
    requires forall i :: 0 <= i < |token| ==> NumberUnit(token[i])
    requires Stops(rest)
    ensures NumberLength(token + rest) == |token|
  {
    if token == [] {
      assert token + rest == rest;
    } else {
      assert (token + rest)[1..] == token[1..] + rest;
      NumberLengthIs(token[1..], rest);
    }
  }

  lemma NumberRoundTrip(numbers: Numbers, n: int, rest: Text)
    requires NumbersValid(numbers) && Stops(rest)
    ensures ParseValue(numbers, numbers.text(n) + rest) == Some(Parsed(Number(n), rest))
  {
    var token := numbers.text(n);
    var t := token + rest;
    NumberLengthIs(token, rest);
    assert t[..|token|] == token && t[|token|..] == rest;
    assert NumberUnit(t[0]);
  }

  predicate Plain(v: Json)
    decreases v
  {
    match v
    case Undefined => false
    case Arr(items) => PlainItems(items)
    case Obj(members) => PlainMembers(members)
    case _ => true
  }

  predicate PlainItems(items: seq<Json>)
    decreases items
  {
    items == [] || (Plain(items[0]) && PlainItems(items[1..]))
  }

  predicate PlainMember(m: Member)
    decreases m
  {
    Plain(m.value)
  }

  predicate PlainMembers(members: seq<Member>)
    decreases members
  {
    members == [] || (PlainMember(members[0]) && PlainMembers(members[1..]))
  }

  lemma PrintNormalNonEmpty(numbers: Numbers, v: Json)
    requires NumbersValid(numbers)
    ensures PrintNormal(numbers, v) != []
    ensures PrintNormal(numbers, v)[0] != CLOSE_BRACKET
  {
  }

  lemma QuotedRoundTrip(s: Text, rest: Text)
    ensures Quoted(s) + rest != [] && (Quoted(s) + rest)[0] == QUOTE
    ensures ParseString((Quoted(s) + rest)[1..]) == Some(Parsed(s, rest))
  {
    hide ParseString, Escape;
    StringRoundTrip(s, rest);
    assert (Quoted(s) + rest)[1..] == Escape(s) + ([QUOTE] + rest);
  }

  lemma LiteralRoundTrip(numbers: Numbers, rest: Text)
    ensures ParseValue(numbers, NULL_TEXT + rest) == Some(Parsed(Null, rest))
    ensures ParseValue(numbers, TRUE_TEXT + rest) == Some(Parsed(Bool(true), rest))
    ensures ParseValue(numbers, FALSE_TEXT + rest) == Some(Parsed(Bool(false), rest))
  {
    assert NULL_TEXT <= NULL_TEXT + rest && (NULL_TEXT + rest)[4..] == rest;
    assert TRUE_TEXT <= TRUE_TEXT + rest && (TRUE_TEXT + rest)[4..] == rest && (TRUE_TEXT + rest)[0] == 116;
    assert FALSE_TEXT <= FALSE_TEXT + rest && (FALSE_TEXT + rest)[5..] == rest && (FALSE_TEXT + rest)[0] == 102;
    assert NULL_TEXT[0] == 110 && TRUE_TEXT[0] == 116;
  }

  lemma ArrayRead(numbers: Numbers, t: Text, items: seq<Json>, rest: Text)
    requires t != [] && t[0] == OPEN_BRACKET
    requires items == [] ==> t[1..] == [CLOSE_BRACKET] + rest
    requires items != [] ==> |t| > 1 && t[1] != CLOSE_BRACKET && ParseItems(numbers, t[1..]) == Some(Parsed(items, rest))
    ensures ParseValue(numbers, t) == Some(Parsed(Arr(items), rest))
  {
    hide ParseItems;
    if items == [] {
      assert t[1] == t[1..][0] == CLOSE_BRACKET;
      assert t[2..] == t[1..][1..] == rest;
    }
  }

  lemma ObjectRead(numbers: Numbers, t: Text, members: seq<Member>, rest: Text)
    requires t != [] && t[0] == OPEN_BRACE
    requires members == [] ==> t[1..] == [CLOSE_BRACE] + rest
    requires members != [] ==> |t| > 1 && t[1] == QUOTE && ParseMembers(numbers, t[1..]) == Some(Parsed(members, rest))
    ensures ParseValue(numbers, t) == Some(Parsed(Obj(members), rest))
  {
    hide ParseMembers;
    if members == [] {
      assert t[1] == t[1..][0] == CLOSE_BRACE;
      assert t[2..] == t[1..][1..] == rest;
    }
  }

  /** Parsing a printed normal form gives the value and what followed it. */
  lemma {:induction false} RoundTrip(numbers: Numbers, v: Json, rest: Text)
    requires NumbersValid(numbers) && Plain(v) && Stops(rest)
    ensures ParseValue(numbers, PrintNormal(numbers, v) + rest) == Some(Parsed(v, rest))
    decreases v, 0
  {
    match v
    case Null => LiteralRoundTrip(numbers, rest);
    case Bool(b) => LiteralRoundTrip(numbers, rest);
    case Number(n) => NumberRoundTrip(numbers, n, rest);
    case Str(s) => QuotedValueRoundTrip(numbers, s, rest);
    case Arr(items) =>
      hide ParseValue, ParseItems;
      var inner := Join(NormalTexts(numbers, items));
      var t := PrintNormal(numbers, v) + rest;
      assert t == [OPEN_BRACKET] + (inner + [CLOSE_BRACKET] + rest);
      assert t[1..] == inner + [CLOSE_BRACKET] + rest;
      if items != [] {
        ItemsRoundTrip(numbers, items, rest);
        ItemsStart(numbers, items);
      }
      ArrayRead(numbers, t, items, rest);
    case Obj(members) =>
      hide ParseValue, ParseMembers;
      var inner := Join(NormalEntries(numbers, members));
      var t := PrintNormal(numbers, v) + rest;
      assert t == [OPEN_BRACE] + (inner + [CLOSE_BRACE] + rest);
      assert t[1..] == inner + [CLOSE_BRACE] + rest;
      if members != [] {
        MembersRoundTrip(numbers, members, rest);
        MembersStart(numbers, members);
      }
      ObjectRead(numbers, t, members, rest);
  }

  lemma QuotedValueRoundTrip(numbers: Numbers, s: Text, rest: Text)
    ensures ParseValue(numbers, Quoted(s) + rest) == Some(Parsed(Str(s), rest))
  {
    hide ParseString, Quoted;
    QuotedRoundTrip(s, rest);
  }

  lemma ItemsStart(numbers: Numbers, items: seq<Json>)
    requires NumbersValid(numbers) && items != []
    ensures Join(NormalTexts(numbers, items)) != [] && Join(NormalTexts(numbers, items))[0] != CLOSE_BRACKET
  {
    PrintNormalNonEmpty(numbers, items[0]);
  }

  lemma MembersStart(numbers: Numbers, members: seq<Member>)
    requires members != []
    ensures Join(NormalEntries(numbers, members)) != [] && Join(NormalEntries(numbers, members))[0] == QUOTE
  {
    var first := NormalEntry(numbers, members[0]);
    assert first != [] && first[0] == QUOTE;
    assert NormalEntries(numbers, members)[0] == first;
  }

  lemma {:induction false} ItemsRoundTrip(numbers: Numbers, items: seq<Json>, rest: Text)
    requires NumbersValid(numbers) && PlainItems(items) && items != []
    ensures ParseItems(numbers, Join(NormalTexts(numbers, items)) + [CLOSE_BRACKET] + rest) == Some(Parsed(items, rest))
    decreases items, 1
  {
    hide PrintNormal, ParseValue;
    var t := Join(NormalTexts(numbers, items)) + [CLOSE_BRACKET] + rest;
    var first := PrintNormal(numbers, items[0]);
    if |items| == 1 {
      assert t == first + ([CLOSE_BRACKET] + rest);
      RoundTrip(numbers, items[0], [CLOSE_BRACKET] + rest);
      assert items == [items[0]];
    } else {
      var more := Join(NormalTexts(numbers, items[1..])) + [CLOSE_BRACKET] + rest;
      assert t == first + ([COMMA] + more);
      RoundTrip(numbers, items[0], [COMMA] + more);
      ItemsRoundTrip(numbers, items[1..], rest);
      assert ([COMMA] + more)[1..] == more;
      assert items == [items[0]] + items[1..];
    }
  }

  lemma {:induction false} MemberRoundTrip(numbers: Numbers, m: Member, after: Text)
    requires NumbersValid(numbers) && PlainMember(m) && Stops(after)
    ensures var t := NormalEntry(numbers, m) + after;
            && t != [] && t[0] == QUOTE
            && var k := ParseString(t[1..]);
            && k.Some? && k.value.value == m.key && k.value.rest != [] && k.value.rest[0] == COLON
            && ParseValue(numbers, k.value.rest[1..]) == Some(Parsed(m.value, after))
    decreases m, 0
  {
    hide ParseString, ParseValue, Quoted, PrintNormal;
    var value := PrintNormal(numbers, m.value) + after;
    var t := NormalEntry(numbers, m) + after;
    assert t == Quoted(m.key) + ([COLON] + value);
    QuotedRoundTrip(m.key, [COLON] + value);
    assert ([COLON] + value)[1..] == value;
    RoundTrip(numbers, m.value, after);
  }

  lemma {:induction false} MembersRoundTrip(numbers: Numbers, members: seq<Member>, rest: Text)
    requires NumbersValid(numbers) && PlainMembers(members) && members != []
    ensures ParseMembers(numbers, Join(NormalEntries(numbers, members)) + [CLOSE_BRACE] + rest) == Some(Parsed(members, rest))
    decreases members, 1
  {
    hide NormalEntry, ParseString, ParseValue;
    var t := Join(NormalEntries(numbers, members)) + [CLOSE_BRACE] + rest;
    var first := NormalEntry(numbers, members[0]);
    if |members| == 1 {
      assert t == first + ([CLOSE_BRACE] + rest);
      MemberRoundTrip(numbers, members[0], [CLOSE_BRACE] + rest);
      assert members == [members[0]];
    } else {
      var more := Join(NormalEntries(numbers, members[1..])) + [CLOSE_BRACE] + rest;
      assert t == first + ([COMMA] + more);
      MemberRoundTrip(numbers, members[0], [COMMA] + more);
      MembersRoundTrip(numbers, members[1..], rest);
      assert ([COMMA] + more)[1..] == more;
      assert members == [members[0]] + members[1..];
    }
  }

  // ------------------------------------------------------------------ injectivity

  lemma {:induction false} NormalIsPlain(v: Json)
    ensures Plain(Normal(v))
    decreases v
  {
    match v
    case Arr(items) => NormalItemsPlain(items);
    case Obj(members) =>
      NormalMembersPlain(members);
      SortBySame(NormalMembers(members));
      AllPlain(SortBy(NormalMembers(members), ById(Key())));
    case _ =>
  }

  lemma SortBySame(members: seq<Member>)
    ensures multiset(SortBy(members, ById(Key()))) == multiset(members)
    ensures forall m :: m in SortBy(members, ById(Key())) <==> m in members
  {
    ByScoresStrict(Zero<Member>(), Zero<Member>(), Key());
    SortBySorts(members, ById(Key()));
    SameMembers(SortBy(members, ById(Key())), members);
  }

  lemma {:induction false} NormalItemsPlain(items: seq<Json>)
    ensures PlainItems(NormalItems(items))
    decreases items
  {
    if items != [] {
      NormalIsPlain(items[0]);
      NormalItemsPlain(items[1..]);
      assert NormalItems(items)[1..] == NormalItems(items[1..]);
    }
  }

  lemma {:induction false} NormalMemberPlain(m: Member)
    ensures PlainMember(NormalMember(m))
    decreases m
  {
    NormalIsPlain(m.value);
  }

  lemma {:induction false} NormalMembersPlain(members: seq<Member>)
    ensures forall m :: m in NormalMembers(members) ==> PlainMember(m)
    decreases members
  {
    if members != [] {
      NormalMemberPlain(members[0]);
      NormalMembersPlain(members[1..]);
    }
  }

  lemma {:induction false} AllPlain(members: seq<Member>)
    requires forall m :: m in members ==> PlainMember(m)
    ensures PlainMembers(members)
  {
    if members != [] {
      assert members[0] in members;
      AllPlain(members[1..]);
    }
  }

  /** The parser recovers from any printed value its normal form, and the text
      that follows it. */
  lemma ParseRecovers(numbers: Numbers, v: Json, rest: Text)
    requires NumbersValid(numbers) && Stops(rest)
    ensures ParseValue(numbers, Print(numbers, v) + rest) == Some(Parsed(Normal(v), rest))
  {
    PrintsNormal(numbers, v);
    NormalIsPlain(v);
    RoundTrip(numbers, Normal(v), rest);
  }

  /** Two values print alike exactly when they have the same normal form. */
  lemma PrintsAlikeIff(numbers: Numbers, v: Json, w: Json)
    requires NumbersValid(numbers)
    ensures Print(numbers, v) == Print(numbers, w) <==> Normal(v) == Normal(w)
  {
    PrintsNormal(numbers, v);
    PrintsNormal(numbers, w);
    ParseRecovers(numbers, v, []);
    ParseRecovers(numbers, w, []);
  }
}
