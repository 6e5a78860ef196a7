/** HotelsService.search and its Redis cache. */
module SearchCache {
  import opened Wrappers
  import opened BookingRefs

  // ── Values and their JSON form ───────────────────────────────────────────────

  datatype Value =
    | Undefined
    | Null
    | NonFinite            // NaN and the infinities
    | Number(n: int)
    | Text(text: string)
    | List(items: seq<Value>)
    | Record(fields: seq<Field>)

  datatype Field = Field(name: string, value: Value)

  /** `JSON.parse(JSON.stringify(v))` for v other than undefined. */
  function JsonForm(v: Value): Value
    decreases v
  {
    match v
    case Undefined => Null
    case NonFinite => Null
    case List(items) => List(JsonItems(items))
    case Record(fields) => Record(JsonFields(fields))
    case _ => v
  }

  /** In a list, undefined becomes null. */
  function JsonItems(items: seq<Value>): (forms: seq<Value>)
    ensures |forms| == |items|
    decreases items
  {
    if items == [] then [] else [JsonForm(items[0])] + JsonItems(items[1..])
  }

  /** In a record, undefined properties disappear. */
  function JsonFields(fields: seq<Field>): seq<Field>
    decreases fields
  {
    if fields == [] then []
    else
      var f := fields[0];
      (if f.value == Undefined then [] else [Field(f.name, JsonForm(f.value))]) + JsonFields(fields[1..])
  }

  /** Reading back what was read back changes nothing more. */
  lemma {:induction false} JsonFormTwice(v: Value)
    ensures JsonForm(JsonForm(v)) == JsonForm(v)
    decreases v
  {
    match v
    case List(items) => JsonItemsTwice(items);
    case Record(fields) => JsonFieldsTwice(fields);
    case _ =>
  }

  lemma {:induction false} JsonItemsTwice(items: seq<Value>)
    ensures JsonItems(JsonItems(items)) == JsonItems(items)
    decreases items
  {
    if items != [] {
      JsonFormTwice(items[0]);
      JsonItemsTwice(items[1..]);
      assert JsonItems(items)[1..] == JsonItems(items[1..]);
    }
  }

  lemma {:induction false} JsonFieldsTwice(fields: seq<Field>)
    ensures JsonFields(JsonFields(fields)) == JsonFields(fields)
    decreases fields
  {
    if fields != [] {
      var f := fields[0];
      JsonFieldsTwice(fields[1..]);
      if f.value == Undefined {
        assert JsonFields(fields) == JsonFields(fields[1..]);
      } else {
        JsonFormTwice(f.value);
        assert JsonFields(fields)[1..] == JsonFields(fields[1..]);
      }
    }
  }

  // ── The text of a JSON form ──────────────────────────────────────────────────

  /** Neither undefined nor a number JSON cannot write, anywhere in it. */
  predicate Formed(v: Value)
    decreases v
  {
    match v
    case Undefined => false
    case NonFinite => false
    case List(items) => forall i :: 0 <= i < |items| ==> Formed(items[i])
    case Record(fields) => forall i :: 0 <= i < |fields| ==> Formed(fields[i].value)
    case _ => true
  }

  function Hex(d: nat): char
    requires d < 16
  {
    if d < 10 then ('0' as int + d) as char else ('a' as int + d - 10) as char
  }

  /** A character of a string as JSON.stringify writes it. */
  function Escaped(c: char): string {
    var code := c as int;
    if c == '"' || c == '\\' then ['\\', c]
    else if code >= 32 then [c]
    else if code == 8 then "\\b"
    else if code == 9 then "\\t"
    else if code == 10 then "\\n"
    else if code == 12 then "\\f"
    else if code == 13 then "\\r"
    else "\\u00" + [Hex(code / 16), Hex(code % 16)]
  }

  // Each of these writes its argument in front of `rest`.

  /** The characters of a string and the closing quote. */
  function ShowChars(s: string, rest: string): string {
    if s == [] then ['"'] + rest else Escaped(s[0]) + ShowChars(s[1..], rest)
  }

  function ShowText(s: string, rest: string): string {
    ['"'] + ShowChars(s, rest)
  }

  function ShowNumber(n: int, rest: string): string {
    if n < 0 then ['-'] + (Decimal(-n) + rest) else Decimal(n) + rest
  }

  /** `JSON.stringify` of a JSON form. */
  function Show(v: Value, rest: string): string
    decreases v
  {
    match v
    case Undefined => "null" + rest
    case NonFinite => "null" + rest
    case Null => "null" + rest
    case Number(n) => ShowNumber(n, rest)
    case Text(text) => ShowText(text, rest)
    case List(items) => ['['] + if items == [] then [']'] + rest else Show(items[0], ShowItems(items[1..], rest))
    case Record(fields) => ['{'] + if fields == [] then ['}'] + rest else ShowField(fields[0], ShowFields(fields[1..], rest))
  }

  /** The items after the first, and the closing bracket. */
  function ShowItems(items: seq<Value>, rest: string): string
    decreases items
  {
    if items == [] then [']'] + rest else [','] + Show(items[0], ShowItems(items[1..], rest))
  }

  function ShowField(f: Field, rest: string): string
    decreases f
  {
    ShowText(f.name, [':'] + Show(f.value, rest))
  }

  function ShowFields(fields: seq<Field>, rest: string): string
    decreases fields
  {
    if fields == [] then ['}'] + rest else [','] + ShowField(fields[0], ShowFields(fields[1..], rest))
  }

  /** What may follow a value. */
  predicate Ends(rest: string) {
    rest == [] || rest[0] == ',' || rest[0] == ']' || rest[0] == '}'
  }

  /** JSON's punctuation, on two items and on two properties. */
  lemma Layout(a: Value, b: Value, n: string, m: string, rest: string)
    ensures Show(List([a, b]), rest) == ['['] + Show(a, [','] + Show(b, [']'] + rest))
    ensures Show(Record([Field(n, a), Field(m, b)]), rest)
         == ['{'] + ShowText(n, [':'] + Show(a, [','] + ShowText(m, [':'] + Show(b, ['}'] + rest))))
    ensures Show(List([]), rest) == ['['] + ([']'] + rest) && Show(Record([]), rest) == ['{'] + (['}'] + rest)
    ensures Show(Null, rest) == "null" + rest
  {
    assert [a, b][1..] == [b] && [b][1..] == [];
    var f, g := Field(n, a), Field(m, b);
    assert [f, g][1..] == [g] && [g][1..] == [];
    assert ShowItems([b], rest) == [','] + Show(b, ShowItems([], rest));
    assert ShowFields([g], rest) == [','] + ShowField(g, ShowFields([], rest));
  }

  lemma Head(c: char, s: string, d: char, t: string)
    requires [c] + s == [d] + t
    ensures c == d && s == t
  {
    assert ([c] + s)[0] == c && ([d] + t)[0] == d;
    assert ([c] + s)[1..] == s && ([d] + t)[1..] == t;
  }

  lemma HexInjective(d: nat, e: nat)
    requires d < 16 && e < 16 && Hex(d) == Hex(e)
    ensures d == e
  {
  }

  /** One character can be read back, whatever follows. */
  lemma EscapedInjective(c: char, d: char, r: string, q: string)
    requires Escaped(c) + r == Escaped(d) + q
    ensures c == d && r == q
  {
    var s, t := Escaped(c) + r, Escaped(d) + q;
    assert s[0] == Escaped(c)[0] && t[0] == Escaped(d)[0];
    assert |Escaped(c)| > 1 ==> s[1] == Escaped(c)[1];
    assert |Escaped(d)| > 1 ==> t[1] == Escaped(d)[1];
    if |Escaped(c)| == 6 && |Escaped(d)| == 6 {
      assert s[4] == Escaped(c)[4] && s[5] == Escaped(c)[5] && t[4] == Escaped(d)[4] && t[5] == Escaped(d)[5];
      HexInjective(c as int / 16, d as int / 16);
      HexInjective(c as int % 16, d as int % 16);
    }
    assert c == d;
    assert s[|Escaped(c)|..] == r && t[|Escaped(d)|..] == q;
  }

  lemma CharsStart(s: string, rest: string)
    ensures ShowChars(s, rest) != [] && (ShowChars(s, rest)[0] == '"' <==> s == [])
  {
    if s != [] {
      assert ShowChars(s, rest)[0] == Escaped(s[0])[0];
    }
  }

  lemma {:induction false} CharsInjective(s: string, t: string, r: string, q: string)
    requires ShowChars(s, r) == ShowChars(t, q)
    ensures s == t && r == q
  {
    CharsStart(s, r);
    CharsStart(t, q);
    if s == [] {
      Head('"', r, '"', q);
    } else {
      EscapedInjective(s[0], t[0], ShowChars(s[1..], r), ShowChars(t[1..], q));
      CharsInjective(s[1..], t[1..], r, q);
      assert s == [s[0]] + s[1..] && t == [t[0]] + t[1..];
    }
  }

  lemma TextInjective(s: string, t: string, r: string, q: string)
    requires ShowText(s, r) == ShowText(t, q)
    ensures s == t && r == q
  {
    Head('"', ShowChars(s, r), '"', ShowChars(t, q));
    CharsInjective(s, t, r, q);
  }

  predicate NoDigit(rest: string) {
    rest == [] || !('0' <= rest[0] <= '9')
  }

  lemma DigitsNotShorter(a: string, b: string, r: string, q: string)
    requires AllDigits(b) && NoDigit(r) && a + r == b + q
    ensures |a| >= |b|
  {
    assert r != [] ==> (a + r)[|a|] == r[0];
  }

  lemma DigitsEnd(a: string, b: string, r: string, q: string)
    requires AllDigits(a) && AllDigits(b) && NoDigit(r) && NoDigit(q) && a + r == b + q
    ensures a == b && r == q
  {
    DigitsNotShorter(a, b, r, q);
    DigitsNotShorter(b, a, q, r);
    assert (a + r)[..|a|] == a && (b + q)[..|b|] == b && (a + r)[|a|..] == r && (b + q)[|b|..] == q;
  }

  lemma NumberStarts(n: int, rest: string)
    ensures ShowNumber(n, rest) != [] && (ShowNumber(n, rest)[0] == '-' <==> n < 0)
    ensures n >= 0 ==> '0' <= ShowNumber(n, rest)[0] <= '9'
  {
    if n >= 0 {
      assert Decimal(n) != [] && ShowNumber(n, rest)[0] == Decimal(n)[0];
    }
  }

  lemma NumberInjective(n: int, m: int, r: string, q: string)
    requires NoDigit(r) && NoDigit(q) && ShowNumber(n, r) == ShowNumber(m, q)
    ensures n == m && r == q
  {
    NumberStarts(n, r);
    NumberStarts(m, q);
    if n < 0 {
      Head('-', Decimal(-n) + r, '-', Decimal(-m) + q);
      DecimalInjective(-n, -m, r, q);
    } else {
      DecimalInjective(n, m, r, q);
    }
  }

  lemma DecimalInjective(n: nat, m: nat, r: string, q: string)
    requires NoDigit(r) && NoDigit(q) && Decimal(n) + r == Decimal(m) + q
    ensures n == m && r == q
  {
    DigitsEnd(Decimal(n), Decimal(m), r, q);
    ValueOfDecimal(n);
    ValueOfDecimal(m);
  }

  /** The first character of a value tells its kind. */
  lemma Starts(v: Value, rest: string)
    requires Formed(v)
    ensures var s := Show(v, rest);
      && s != []
      && (s[0] == 'n' <==> v.Null?) && (s[0] == '"' <==> v.Text?) && (s[0] == '[' <==> v.List?) && (s[0] == '{' <==> v.Record?)
      && s[0] != ']' && s[0] != '}'
  {
    if v.Number? {
      NumberStarts(v.n, rest);
    }
  }

  predicate ItemsFormed(items: seq<Value>) {
    forall i :: 0 <= i < |items| ==> Formed(items[i])
  }

  predicate AllFormed(fields: seq<Field>) {
    forall i :: 0 <= i < |fields| ==> Formed(fields[i].value)
  }

  /** The text of a JSON form can be read back: it determines the form and where it ends. */
  lemma {:induction false} ShowInjective(v: Value, w: Value, r: string, q: string)
    requires Formed(v) && Formed(w) && Ends(r) && Ends(q) && Show(v, r) == Show(w, q)
    ensures v == w && r == q
    decreases v
  {
    Starts(v, r);
    Starts(w, q);
    match v
    case Null => assert ("null" + r)[4..] == r && ("null" + q)[4..] == q;
    case Number(n) => NumberInjective(n, w.n, r, q);
    case Text(text) => TextInjective(text, w.text, r, q);
    case List(items) => ListInjective(items, w.items, r, q);
    case Record(fields) => RecordInjective(fields, w.fields, r, q);
  }

  lemma {:induction false} ListInjective(items: seq<Value>, others: seq<Value>, r: string, q: string)
    requires ItemsFormed(items) && ItemsFormed(others) && Show(List(items), r) == Show(List(others), q)
    ensures items == others && r == q
    decreases items, 1
  {
    if items != [] {
      Starts(items[0], ShowItems(items[1..], r));
    }
    if others != [] {
      Starts(others[0], ShowItems(others[1..], q));
    }
    Head('[', if items == [] then [']'] + r else Show(items[0], ShowItems(items[1..], r)),
         '[', if others == [] then [']'] + q else Show(others[0], ShowItems(others[1..], q)));
    if items == [] {
      Head(']', r, ']', q);
    } else {
      MoreInjective(items, others, r, q);
    }
  }

  /** The first item of two lists, and the others. */
  lemma {:induction false} MoreInjective(items: seq<Value>, others: seq<Value>, r: string, q: string)
    requires items != [] && others != [] && ItemsFormed(items) && ItemsFormed(others)
    requires Show(items[0], ShowItems(items[1..], r)) == Show(others[0], ShowItems(others[1..], q))
    ensures items == others && r == q
    decreases items, 0
  {
    ShowInjective(items[0], others[0], ShowItems(items[1..], r), ShowItems(others[1..], q));
    ItemsInjective(items[1..], others[1..], r, q);
    assert items == [items[0]] + items[1..] && others == [others[0]] + others[1..];
  }

  lemma {:induction false} ItemsInjective(items: seq<Value>, others: seq<Value>, r: string, q: string)
    requires ItemsFormed(items) && ItemsFormed(others) && ShowItems(items, r) == ShowItems(others, q)
    ensures items == others && r == q
    decreases items, 1
  {
    assert ShowItems(items, r)[0] == ShowItems(others, q)[0];
    if items == [] {
      Head(']', r, ']', q);
    } else {
      Head(',', Show(items[0], ShowItems(items[1..], r)), ',', Show(others[0], ShowItems(others[1..], q)));
      MoreInjective(items, others, r, q);
    }
  }

  lemma {:induction false} FieldInjective(fields: seq<Field>, others: seq<Field>, r: string, q: string)
    requires fields != [] && others != [] && AllFormed(fields) && AllFormed(others)
    requires ShowField(fields[0], ShowFields(fields[1..], r)) == ShowField(others[0], ShowFields(others[1..], q))
    ensures fields == others && r == q
    decreases fields, 0
  {
    var f, g := fields[0], others[0];
    var x, y := Show(f.value, ShowFields(fields[1..], r)), Show(g.value, ShowFields(others[1..], q));
    TextInjective(f.name, g.name, [':'] + x, [':'] + y);
    Head(':', x, ':', y);
    ShowInjective(f.value, g.value, ShowFields(fields[1..], r), ShowFields(others[1..], q));
    FieldsInjective(fields[1..], others[1..], r, q);
    assert fields == [f] + fields[1..] && others == [g] + others[1..];
  }

  lemma {:induction false} FieldsInjective(fields: seq<Field>, others: seq<Field>, r: string, q: string)
    requires AllFormed(fields) && AllFormed(others) && ShowFields(fields, r) == ShowFields(others, q)
    ensures fields == others && r == q
    decreases fields, 1
  {
    assert ShowFields(fields, r)[0] == ShowFields(others, q)[0];
    if fields == [] {
      Head('}', r, '}', q);
    } else {
      Head(',', ShowField(fields[0], ShowFields(fields[1..], r)), ',', ShowField(others[0], ShowFields(others[1..], q)));
      FieldInjective(fields, others, r, q);
    }
  }

  lemma {:induction false} RecordInjective(fields: seq<Field>, others: seq<Field>, r: string, q: string)
    requires AllFormed(fields) && AllFormed(others) && Show(Record(fields), r) == Show(Record(others), q)
    ensures fields == others && r == q
    decreases fields, 1
  {
    Head('{', if fields == [] then ['}'] + r else ShowField(fields[0], ShowFields(fields[1..], r)),
         '{', if others == [] then ['}'] + q else ShowField(others[0], ShowFields(others[1..], q)));
    if fields == [] || others == [] {
      assert fields == [] ==> Show(Record(fields), r)[1] == '}';
      assert others == [] ==> Show(Record(others), q)[1] == '}';
      Head('}', r, '}', q);
    } else {
      FieldInjective(fields, others, r, q);
    }
  }

  lemma {:induction false} FormIsFormed(v: Value)
    ensures Formed(JsonForm(v))
    decreases v
  {
    match v
    case List(items) => ItemsAreFormed(items);
    case Record(fields) => FieldsAreFormed(fields);
    case _ =>
  }

  lemma {:induction false} ItemsAreFormed(items: seq<Value>)
    ensures forall i :: 0 <= i < |items| ==> Formed(JsonItems(items)[i])
    decreases items
  {
    if items != [] {
      FormIsFormed(items[0]);
      ItemsAreFormed(items[1..]);
      assert JsonItems(items)[1..] == JsonItems(items[1..]);
    }
  }

  lemma {:induction false} FieldsAreFormed(fields: seq<Field>)
    ensures AllFormed(JsonFields(fields))
    decreases fields
  {
    if fields != [] {
      FormIsFormed(fields[0].value);
      FieldsAreFormed(fields[1..]);
    }
  }

  /** A value survives the round trip through JSON unchanged exactly when JSON can write all of it. */
  lemma {:induction false} JsonFormExactly(v: Value)
    ensures JsonForm(v) == v <==> Formed(v)
    decreases v
  {
    FormIsFormed(v);
    if Formed(v) {
      match v
      case List(items) => ItemsUnchanged(items);
      case Record(fields) => FieldsUnchanged(fields);
      case _ =>
    }
  }

  lemma {:induction false} ItemsUnchanged(items: seq<Value>)
    requires ItemsFormed(items)
    ensures JsonItems(items) == items
    decreases items
  {
    if items != [] {
      JsonFormExactly(items[0]);
      ItemsUnchanged(items[1..]);
      assert items == [items[0]] + items[1..];
    }
  }

  lemma {:induction false} FieldsUnchanged(fields: seq<Field>)
    requires AllFormed(fields)
    ensures JsonFields(fields) == fields
    decreases fields
  {
    if fields != [] {
      JsonFormExactly(fields[0].value);
      FieldsUnchanged(fields[1..]);
      assert fields == [fields[0]] + fields[1..];
    }
  }

  /** What becomes of a value JSON cannot write, by where it stands. */
  lemma Unwritable(name: string, rest: seq<Field>)
    ensures JsonForm(NonFinite) == Null && JsonForm(List([Undefined])) == List([Null])
    ensures JsonFields([Field(name, Undefined)] + rest) == JsonFields(rest)
  {
    assert ([Field(name, Undefined)] + rest)[1..] == rest;
    assert [Undefined][1..] == [];
  }

  /** Two values are written the same exactly when they have the same JSON form. */
  lemma SameTextSameForm(v: Value, w: Value)
    ensures Show(JsonForm(v), "") == Show(JsonForm(w), "") <==> JsonForm(v) == JsonForm(w)
  {
    if Show(JsonForm(v), "") == Show(JsonForm(w), "") {
      FormIsFormed(v);
      FormIsFormed(w);
      ShowInjective(JsonForm(v), JsonForm(w), "", "");
    }
  }

  // ── Requests, keys and criteria ──────────────────────────────────────────────

  /** An optional property of a request: missing, null, or there. */
  datatype Optional<+T> = Missing | IsNull | Given(value: T)

  datatype Room = Room(adults: int, children: Optional<int>, childrenAges: Optional<seq<int>>)

  datatype SearchDto = SearchDto(
    destination: string, cityId: Optional<string>, checkIn: string, checkOut: string,
    rooms: Optional<seq<Room>>, nationality: Optional<string>, currency: Optional<string>)

  datatype RoomCriteria = RoomCriteria(adults: int, children: int, childrenAges: seq<int>)

  /** What the supplier is asked. */
  datatype Criteria = Criteria(
    destination: string, cityId: Optional<string>, checkIn: string, checkOut: string,
    rooms: seq<RoomCriteria>, nationality: string, currency: string)

  /** `o ?? default`. */
  function Or<T>(o: Optional<T>, default: T): T {
    if o.Given? then o.value else default
  }

  function RoomsAsked(rooms: seq<Room>): (asked: seq<RoomCriteria>)
    ensures |asked| == |rooms|
  {
    if rooms == [] then []
    else [RoomCriteria(rooms[0].adults, Or(rooms[0].children, 0), Or(rooms[0].childrenAges, []))] + RoomsAsked(rooms[1..])
  }

  function CriteriaOf(dto: SearchDto): Criteria {
    Criteria(dto.destination, dto.cityId, dto.checkIn, dto.checkOut, RoomsAsked(Or(dto.rooms, [])),
             Or(dto.nationality, "AE"), Or(dto.currency, "AED"))
  }

  /** An optional property, its value already as JSON sees it. */
  function Plain(o: Optional<Value>): Value {
    match o
    case Missing => Undefined
    case IsNull => Null
    case Given(v) => v
  }

  function OptionalText(o: Optional<string>): Optional<Value> {
    match o case Missing => Missing case IsNull => IsNull case Given(t) => Given(Text(t))
  }

  function OptionalNumber(o: Optional<int>): Optional<Value> {
    match o case Missing => Missing case IsNull => IsNull case Given(n) => Given(Number(n))
  }

  function OptionalNumbers(o: Optional<seq<int>>): Optional<Value> {
    match o case Missing => Missing case IsNull => IsNull case Given(ns) => Given(List(Numbers(ns)))
  }

  function OptionalRooms(o: Optional<seq<Room>>): Optional<Value> {
    match o case Missing => Missing case IsNull => IsNull case Given(rooms) => Given(List(RoomValues(rooms)))
  }

  function Numbers(ns: seq<int>): (items: seq<Value>)
    ensures |items| == |ns|
  {
    if ns == [] then [] else [Number(ns[0])] + Numbers(ns[1..])
  }

  function RoomFields(r: Room): seq<Field> {
    [Field("adults", Number(r.adults)),
     Field("children", Plain(OptionalNumber(r.children))),
     Field("childrenAges", Plain(OptionalNumbers(r.childrenAges)))]
  }

  function RoomValues(rooms: seq<Room>): (items: seq<Value>)
    ensures |items| == |rooms|
  {
    if rooms == [] then [] else [Record(RoomFields(rooms[0]))] + RoomValues(rooms[1..])
  }

  function KeyFields(dto: SearchDto): seq<Field> {
    [Field("destination", Text(dto.destination)),
     Field("cityId", Plain(OptionalText(dto.cityId))),
     Field("checkIn", Text(dto.checkIn)),
     Field("checkOut", Text(dto.checkOut)),
     Field("rooms", Plain(OptionalRooms(dto.rooms))),
     Field("nationality", Text(Or(dto.nationality, "AE"))),
     Field("currency", Text(Or(dto.currency, "AED")))]
  }

  /** The text hashSearchParams hashes, standing for its hash: collisions are assumed away. */
  function Key(dto: SearchDto): string {
    Show(JsonForm(Record(KeyFields(dto))), "")
  }

  // ── Equal keys, equal criteria ───────────────────────────────────────────────

  function Get(fields: seq<Field>, name: string): Option<Value> {
    if fields == [] then None else if fields[0].name == name then Some(fields[0].value) else Get(fields[1..], name)
  }

  predicate DistinctNames(fields: seq<Field>) {
    forall i, j :: 0 <= i < j < |fields| ==> fields[i].name != fields[j].name
  }

  lemma {:induction false} GetMissing(fields: seq<Field>, name: string)
    requires forall i :: 0 <= i < |fields| ==> fields[i].name != name
    ensures Get(JsonFields(fields), name) == None
  {
    if fields != [] {
      GetMissing(fields[1..], name);
      if fields[0].value != Undefined {
        assert JsonFields(fields)[1..] == JsonFields(fields[1..]);
      } else {
        assert JsonFields(fields) == JsonFields(fields[1..]);
      }
    }
  }

  /** Each property can be read back from the JSON form. */
  lemma {:induction false} GetForm(fields: seq<Field>, i: nat)
    requires DistinctNames(fields) && i < |fields|
    ensures Get(JsonFields(fields), fields[i].name) ==
      if fields[i].value == Undefined then None else Some(JsonForm(fields[i].value))
  {
    var rest := JsonFields(fields[1..]);
    if fields[0].value == Undefined {
      assert JsonFields(fields) == rest;
    } else {
      assert JsonFields(fields)[1..] == rest;
    }
    if i == 0 {
      if fields[0].value == Undefined {
        GetMissing(fields[1..], fields[0].name);
      }
    } else {
      GetForm(fields[1..], i - 1);
    }
  }

  lemma {:induction false} NumbersInjective(a: seq<int>, b: seq<int>)
    requires JsonItems(Numbers(a)) == JsonItems(Numbers(b))
    ensures a == b
  {
    assert |a| == |JsonItems(Numbers(a))| == |b|;
    if a != [] {
      assert JsonItems(Numbers(a))[0] == Number(a[0]) && JsonItems(Numbers(b))[0] == Number(b[0]);
      assert JsonItems(Numbers(a))[1..] == JsonItems(Numbers(a[1..])) && JsonItems(Numbers(b))[1..] == JsonItems(Numbers(b[1..]));
      NumbersInjective(a[1..], b[1..]);
      assert a == [a[0]] + a[1..] && b == [b[0]] + b[1..];
    }
  }

  lemma RoomFormInjective(r: Room, q: Room)
    requires JsonFields(RoomFields(r)) == JsonFields(RoomFields(q))
    ensures r == q
  {
    RoomNames(r);
    RoomNames(q);
    GetForm(RoomFields(r), 0);
    GetForm(RoomFields(q), 0);
    GetForm(RoomFields(r), 1);
    GetForm(RoomFields(q), 1);
    GetForm(RoomFields(r), 2);
    GetForm(RoomFields(q), 2);
    if r.childrenAges.Given? && q.childrenAges.Given? {
      NumbersInjective(r.childrenAges.value, q.childrenAges.value);
    }
  }

  lemma RoomNames(r: Room)
    ensures DistinctNames(RoomFields(r))
  {
    assert |"adults"| == 6 && |"children"| == 8 && |"childrenAges"| == 12;
  }

  lemma {:induction false} RoomsInjective(a: seq<Room>, b: seq<Room>)
    requires JsonItems(RoomValues(a)) == JsonItems(RoomValues(b))
    ensures a == b
  {
    assert |a| == |JsonItems(RoomValues(a))| == |b|;
    if a != [] {
      assert JsonItems(RoomValues(a))[0] == Record(JsonFields(RoomFields(a[0])));
      assert JsonItems(RoomValues(b))[0] == Record(JsonFields(RoomFields(b[0])));
      RoomFormInjective(a[0], b[0]);
      assert JsonItems(RoomValues(a))[1..] == JsonItems(RoomValues(a[1..]));
      assert JsonItems(RoomValues(b))[1..] == JsonItems(RoomValues(b[1..]));
      RoomsInjective(a[1..], b[1..]);
      assert a == [a[0]] + a[1..] && b == [b[0]] + b[1..];
    }
  }

  lemma KeyNames(dto: SearchDto)
    ensures DistinctNames(KeyFields(dto))
  {
    assert "destination"[0] == 'd' && "nationality"[0] == 'n' && "checkOut"[1] == 'h' && "currency"[1] == 'u';
    assert |"destination"| == 11 && |"cityId"| == 6 && |"checkIn"| == 7 && |"checkOut"| == 8
        && |"rooms"| == 5 && |"nationality"| == 11 && |"currency"| == 8;
  }

  lemma KeyParts(a: SearchDto, b: SearchDto, i: nat)
    requires Key(a) == Key(b) && i < 7
    ensures (KeyFields(a)[i].value == Undefined) <==> (KeyFields(b)[i].value == Undefined)
    ensures JsonForm(KeyFields(a)[i].value) == JsonForm(KeyFields(b)[i].value)
  {
    KeyNames(a);
    KeyNames(b);
    SameTextSameForm(Record(KeyFields(a)), Record(KeyFields(b)));
    GetForm(KeyFields(a), i);
    GetForm(KeyFields(b), i);
    assert KeyFields(a)[i].name == KeyFields(b)[i].name;
  }

  lemma SameTexts(a: SearchDto, b: SearchDto)
    requires Key(a) == Key(b)
    ensures a.destination == b.destination && a.checkIn == b.checkIn && a.checkOut == b.checkOut
  {
    KeyParts(a, b, 0);
    KeyParts(a, b, 2);
    KeyParts(a, b, 3);
  }

  lemma SameDefaults(a: SearchDto, b: SearchDto)
    requires Key(a) == Key(b)
    ensures Or(a.nationality, "AE") == Or(b.nationality, "AE") && Or(a.currency, "AED") == Or(b.currency, "AED")
  {
    KeyParts(a, b, 5);
    KeyParts(a, b, 6);
  }

  lemma SameCity(a: SearchDto, b: SearchDto)
    requires Key(a) == Key(b)
    ensures a.cityId == b.cityId
  {
    KeyParts(a, b, 1);
    assert KeyFields(a)[1].value == Plain(OptionalText(a.cityId)) && KeyFields(b)[1].value == Plain(OptionalText(b.cityId));
  }

  lemma SameRooms(a: SearchDto, b: SearchDto)
    requires Key(a) == Key(b)
    ensures a.rooms == b.rooms
  {
    KeyParts(a, b, 4);
    assert KeyFields(a)[4].value == Plain(OptionalRooms(a.rooms)) && KeyFields(b)[4].value == Plain(OptionalRooms(b.rooms));
    if a.rooms.Given? && b.rooms.Given? {
      RoomsInjective(a.rooms.value, b.rooms.value);
    }
  }

  /** Requests with the same cache key ask the supplier the same question. */
  lemma KeyDeterminesCriteria(a: SearchDto, b: SearchDto)
    requires Key(a) == Key(b)
    ensures CriteriaOf(a) == CriteriaOf(b)
  {
    SameTexts(a, b);
    SameDefaults(a, b);
    SameCity(a, b);
    SameRooms(a, b);
  }

  /** The key distinguishes exactly what the search depends on, with nationality and currency defaulted. */
  lemma KeyExactly(a: SearchDto, b: SearchDto)
    ensures Key(a) == Key(b) <==>
      && a.destination == b.destination && a.cityId == b.cityId && a.checkIn == b.checkIn && a.checkOut == b.checkOut
      && a.rooms == b.rooms
      && (if a.nationality.Given? then a.nationality.value else "AE") == (if b.nationality.Given? then b.nationality.value else "AE")
      && (if a.currency.Given? then a.currency.value else "AED") == (if b.currency.Given? then b.currency.value else "AED")
  {
    if Key(a) == Key(b) {
      SameTexts(a, b);
      SameDefaults(a, b);
      SameCity(a, b);
      SameRooms(a, b);
    }
  }

  lemma {:induction false} RoomsExactly(rooms: seq<Room>, i: nat)
    requires i < |rooms|
    ensures RoomsAsked(rooms)[i] == RoomCriteria(rooms[i].adults,
      if rooms[i].children.Given? then rooms[i].children.value else 0,
      if rooms[i].childrenAges.Given? then rooms[i].childrenAges.value else [])
  {
    if i > 0 {
      RoomsExactly(rooms[1..], i - 1);
    }
  }

  /** What the supplier is asked, with every default written out. */
  lemma CriteriaExactly(dto: SearchDto)
    ensures var c := CriteriaOf(dto);
      && c.destination == dto.destination && c.cityId == dto.cityId && c.checkIn == dto.checkIn && c.checkOut == dto.checkOut
      && c.nationality == (if dto.nationality.Given? then dto.nationality.value else "AE")
      && c.currency == (if dto.currency.Given? then dto.currency.value else "AED")
      && |c.rooms| == (if dto.rooms.Given? then |dto.rooms.value| else 0)
      && forall i :: 0 <= i < |c.rooms| ==>
           c.rooms[i] == RoomCriteria(dto.rooms.value[i].adults,
             if dto.rooms.value[i].children.Given? then dto.rooms.value[i].children.value else 0,
             if dto.rooms.value[i].childrenAges.Given? then dto.rooms.value[i].childrenAges.value else [])
  {
    if dto.rooms.Given? {
      forall i | 0 <= i < |dto.rooms.value|
        ensures RoomsAsked(dto.rooms.value)[i] == RoomCriteria(dto.rooms.value[i].adults,
          if dto.rooms.value[i].children.Given? then dto.rooms.value[i].children.value else 0,
          if dto.rooms.value[i].childrenAges.Given? then dto.rooms.value[i].childrenAges.value else [])
      {
        RoomsExactly(dto.rooms.value, i);
      }
    }
  }

  // ── The cache ────────────────────────────────────────────────────────────────

  const CACHE_TTL_MS := 300 * 1000

  datatype Entry = Entry(hotels: Value, storedAt: int)

  type Cache = map<string, Entry>

  /** A stored answer is readable until its time to live is over; a stored null counts as a miss. */
  function Lookup(cache: Cache, key: string, now: int): Option<Value> {
    if key in cache && now < cache[key].storedAt + CACHE_TTL_MS && cache[key].hotels != Null then Some(cache[key].hotels)
    else None
  }

  /** An answer of the supplier, and when. */
  datatype Answer = Answer(dto: SearchDto, hotels: Value, at: int)

  /** The s-th store put the s-th logged answer under its key. */
  predicate StoredAs(answers: seq<Answer>, stores: seq<(nat, int)>, s: int, key: string, entry: Entry) {
    && 0 <= s < |stores| && stores[s].0 < |answers|
    && key == Key(answers[stores[s].0].dto)
    && entry == Entry(JsonForm(answers[stores[s].0].hotels), stores[s].1)
  }

  /** Every entry was stored from an answer to a request with its key. `stores` logs (answer, time). */
  ghost predicate CacheOk(cache: Cache, answers: seq<Answer>, stores: seq<(nat, int)>) {
    forall key :: key in cache ==> exists s :: StoredAs(answers, stores, s, key, cache[key])
  }

  predicate RecentAnswer(answers: seq<Answer>, stores: seq<(nat, int)>, s: int, dto: SearchDto, hotels: Value, now: int) {
    && 0 <= s < |stores| && stores[s].0 < |answers|
    && CriteriaOf(answers[stores[s].0].dto) == CriteriaOf(dto)
    && hotels == JsonForm(answers[stores[s].0].hotels)
    && now - stores[s].1 < 300 * 1000
  }

  /** The value is the supplier's answer to the same question, stored at most the time to live ago. */
  ghost predicate FromSupplier(answers: seq<Answer>, stores: seq<(nat, int)>, dto: SearchDto, hotels: Value, now: int) {
    exists s :: RecentAnswer(answers, stores, s, dto, hotels, now)
  }

  lemma HitIsGenuine(cache: Cache, answers: seq<Answer>, stores: seq<(nat, int)>, dto: SearchDto, now: int)
    requires CacheOk(cache, answers, stores) && Lookup(cache, Key(dto), now).Some?
    ensures FromSupplier(answers, stores, dto, Lookup(cache, Key(dto), now).value, now)
  {
    var s :| StoredAs(answers, stores, s, Key(dto), cache[Key(dto)]);
    KeyDeterminesCriteria(answers[stores[s].0].dto, dto);
    assert RecentAnswer(answers, stores, s, dto, Lookup(cache, Key(dto), now).value, now);
  }

  lemma MoreAnswers(cache: Cache, answers: seq<Answer>, stores: seq<(nat, int)>, more: Answer)
    requires CacheOk(cache, answers, stores)
    ensures CacheOk(cache, answers + [more], stores)
  {
    forall key | key in cache
      ensures exists s :: StoredAs(answers + [more], stores, s, key, cache[key])
    {
      var s :| StoredAs(answers, stores, s, key, cache[key]);
      assert StoredAs(answers + [more], stores, s, key, cache[key]);
    }
  }

  lemma MoreStores(cache: Cache, answers: seq<Answer>, stores: seq<(nat, int)>, i: nat, at: int)
    requires CacheOk(cache, answers, stores) && i < |answers|
    ensures CacheOk(cache[Key(answers[i].dto) := Entry(JsonForm(answers[i].hotels), at)], answers, stores + [(i, at)])
  {
    var next := cache[Key(answers[i].dto) := Entry(JsonForm(answers[i].hotels), at)];
    forall key | key in next
      ensures exists s :: StoredAs(answers, stores + [(i, at)], s, key, next[key])
    {
      if key == Key(answers[i].dto) {
        assert StoredAs(answers, stores + [(i, at)], |stores|, key, next[key]);
      } else {
        var s :| StoredAs(answers, stores, s, key, cache[key]);
        assert StoredAs(answers, stores + [(i, at)], s, key, next[key]);
      }
    }
  }

  // ── Interleaved searches ─────────────────────────────────────────────────────

  /** The points at which searches touch the shared state, in any order. */
  datatype Event =
    | Answered(dto: SearchDto, hotels: Value, at: int)
    | Stored(answer: nat, at: int)
    | Evicted(key: string)

  datatype State = State(cache: Cache, answers: seq<Answer>, stores: seq<(nat, int)>)

  function Next(s: State, e: Event): State {
    match e
    case Answered(dto, hotels, at) => s.(answers := s.answers + [Answer(dto, hotels, at)])
    case Stored(i, at) =>
      if i >= |s.answers| then s
      else s.(cache := s.cache[Key(s.answers[i].dto) := Entry(JsonForm(s.answers[i].hotels), at)], stores := s.stores + [(i, at)])
    case Evicted(key) => s.(cache := s.cache - {key})
  }

  function Run(events: seq<Event>): State {
    if events == [] then State(map[], [], []) else Next(Run(events[..|events| - 1]), events[|events| - 1])
  }

  ghost predicate Genuine(s: State) {
    CacheOk(s.cache, s.answers, s.stores)
  }

  lemma NextKeepsCache(s: State, e: Event)
    requires Genuine(s)
    ensures Genuine(Next(s, e))
  {
    match e
    case Answered(dto, hotels, at) => MoreAnswers(s.cache, s.answers, s.stores, Answer(dto, hotels, at));
    case Stored(i, at) =>
      if i < |s.answers| {
        MoreStores(s.cache, s.answers, s.stores, i, at);
      }
    case Evicted(key) =>
  }

  lemma {:induction false} RunKeepsCache(events: seq<Event>)
    ensures Genuine(Run(events))
  {
    if events != [] {
      RunKeepsCache(events[..|events| - 1]);
      NextKeepsCache(Run(events[..|events| - 1]), events[|events| - 1]);
    }
  }

  /** A stored answer is found for 300 s, by every request with the same key, unless it is null. */
  lemma StoredIsFound(s: State, i: nat, at: int, dto: SearchDto, now: int)
    requires i < |s.answers| && Key(dto) == Key(s.answers[i].dto) && at <= now
    ensures Lookup(Next(s, Stored(i, at)).cache, Key(dto), now) ==
      if now < at + 300 * 1000 && JsonForm(s.answers[i].hotels) != Null then Some(JsonForm(s.answers[i].hotels)) else None
  {
  }

  /** However searches, stores, failures and evictions interleave, a hit is the supplier's own recent answer. */
  lemma CacheTransparent(events: seq<Event>, dto: SearchDto, now: int)
    requires Lookup(Run(events).cache, Key(dto), now).Some?
    ensures FromSupplier(Run(events).answers, Run(events).stores, dto, Lookup(Run(events).cache, Key(dto), now).value, now)
  {
    RunKeepsCache(events);
    HitIsGenuine(Run(events).cache, Run(events).answers, Run(events).stores, dto, now);
  }

  // ── The service ──────────────────────────────────────────────────────────────

  class HotelsService {
    var connected: bool      // whether redis was initialised
    var cache: Cache
    ghost var answers: seq<Answer>
    ghost var stores: seq<(nat, int)>

    ghost function View(): State
      reads this
    {
      State(cache, answers, stores)
    }

    constructor (connected: bool)
      ensures View() == Run([]) && this.connected == connected
    {
      this.connected := connected;
      cache := map[];
      answers, stores := [], [];
    }

    method GetFromCache(key: string, now: int, fails: bool) returns (hotels: Option<Value>)
      ensures hotels == if connected && !fails then Lookup(cache, key, now) else None
      ensures hotels.Some? <==>
        connected && !fails && key in cache && now < cache[key].storedAt + 300 * 1000 && cache[key].hotels != Null
      ensures hotels.Some? ==> hotels.value == cache[key].hotels
    {
      if !connected || fails {
        return None;
      }
      hotels := Lookup(cache, key, now);
    }

    method SetInCache(key: string, hotels: Value, now: int, fails: bool, ghost i: nat)
      requires i < |answers| && key == Key(answers[i].dto) && hotels == answers[i].hotels
      modifies this
      ensures View() == if connected && !fails then Next(old(View()), Stored(i, now)) else old(View())
      ensures cache == if connected && !fails then old(cache)[key := Entry(JsonForm(hotels), now)] else old(cache)
      ensures connected == old(connected)
    {
      if !connected || fails {
        return;
      }
      cache := cache[key := Entry(JsonForm(hotels), now)];
      stores := stores + [(i, now)];
    }

    /** Redis may drop any entry at any time. */
    method Evict(key: string)
      modifies this
      ensures View() == Next(old(View()), Evicted(key)) && connected == old(connected)
      ensures cache == old(cache) - {key}
    {
      cache := cache - {key};
    }

    ghost method HearSupplier(dto: SearchDto, hotels: Value, at: int)
      modifies this
      ensures View() == Next(old(View()), Answered(dto, hotels, at)) && connected == old(connected)
    {
      answers := answers + [Answer(dto, hotels, at)];
    }

    /**
      A hit is the supplier's answer to the same criteria, stored at most five minutes ago, and
      changes nothing; a miss asks the supplier and stores what it says. `answer` is what the
      supplier would say, None if its call throws.
    */
    method Search(dto: SearchDto, now: int, answer: Option<Value>, later: int, getFails: bool, setFails: bool)
      returns (hotels: Option<Value>)
      requires Genuine(View())
      modifies this
      ensures Genuine(View())
      ensures var key := Key(dto);
        var hit := connected && !getFails && key in old(cache)
          && now < old(cache)[key].storedAt + 300 * 1000 && old(cache)[key].hotels != Null;
        && hotels == (if hit then Some(old(cache)[key].hotels) else answer)
        && cache == if !hit && answer.Some? && connected && !setFails then old(cache)[key := Entry(JsonForm(answer.value), later)]
                    else old(cache)
      ensures var hit := if connected && !getFails then Lookup(old(cache), Key(dto), now) else None;
        && hotels == (if hit.Some? then hit else answer)
        && (hit.Some? ==> FromSupplier(old(answers), old(stores), dto, hotels.value, now))
        && View() == if hit.Some? || answer.None? then old(View()) else Remembered(old(View()), dto, answer.value, later, connected && !setFails)
    {
      var searchId := Key(dto);
      var cached := GetFromCache(searchId, now, getFails);
      if cached.Some? {
        HitIsGenuine(cache, answers, stores, dto, now);
        return cached;
      }
      if answer.None? {
        return None;
      }
      ghost var i := |answers|;
      NextKeepsCache(View(), Answered(dto, answer.value, later));
      HearSupplier(dto, answer.value, later);
      NextKeepsCache(View(), Stored(i, later));
      SetInCache(searchId, answer.value, later, setFails, i);
      return answer;
    }
  }

  /** After a miss: the answer is logged, and stored unless Redis is down. */
  function Remembered(s: State, dto: SearchDto, hotels: Value, at: int, stored: bool): State {
    var t := Next(s, Answered(dto, hotels, at));
    if stored then Next(t, Stored(|s.answers|, at)) else t
  }
}
