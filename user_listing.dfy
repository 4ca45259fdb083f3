/** `listUsers` of user/model.js: a flat query-string filter is compiled into
    a MongoDB query (a conjunction of conditions, a sort key and direction, a
    skip count and a limit), and the store evaluates that query over the user
    collection in its natural storage order.

    The compilation follows the source line by line. The evaluation
    (`RunQuery`) is the database's part; it is written out here so that the
    filtering, sorting and pagination the compiled query asks for can be
    stated and proved. */
module UserListing {
  import opened Common
  import opened UserModel

  /** The request's query string: every value is a string. */
  type Filter = map<string, string>

  /** JavaScript truthiness of `filter[key]`: present and not empty. */
  predicate Given(f: Filter, key: string) {
    key in f && f[key] != ""
  }

  // ---------------------------------------------------------------------
  // parseInt(s, 10)
  // ---------------------------------------------------------------------

  /** A JavaScript number produced by `parseInt`: an integer, or NaN. */
  datatype Num = Int(n: int) | NaN

  predicate IsDigit(c: char) {
    '0' <= c <= '9'
  }

  /** What `parseInt` skips: the WhiteSpace and LineTerminator characters
      of ECMA-262. Below U+0080 these are the space and tab to carriage
      return; above it, the Unicode space separators (Zs), the byte order
      mark and the line and paragraph separators. */
  predicate IsSpace(c: char) {
    if c < '\U{80}' then c == ' ' || '\t' <= c <= '\r' else IsWideSpace(c)
  }

  predicate IsWideSpace(c: char) {
    || c == '\U{A0}' || c == '\U{1680}' || '\U{2000}' <= c <= '\U{200A}'
    || c == '\U{2028}' || c == '\U{2029}' || c == '\U{202F}' || c == '\U{205F}'
    || c == '\U{3000}' || c == '\U{FEFF}'
  }

  predicate AllDigits(s: string) {
    forall i :: 0 <= i < |s| ==> IsDigit(s[i])
  }

  /** The length of the leading run of decimal digits. */
  function DigitRun(s: string): (k: nat)
    ensures k <= |s| && AllDigits(s[..k])
    ensures k < |s| ==> !IsDigit(s[k])
  {
    if s != [] && IsDigit(s[0]) then
      var k := 1 + DigitRun(s[1..]);
      assert s[..k] == [s[0]] + s[1..][..k - 1];
      k
    else 0
  }

  /** `s` without its leading white space. */
  function SkipSpaces(s: string): (t: string)
    ensures |t| <= |s|
    ensures t != [] ==> !IsSpace(t[0])
  {
    if s != [] && IsSpace(s[0]) then SkipSpaces(s[1..]) else s
  }

  /** The value of a string of decimal digits, most significant first. */
  function DigitsValue(s: string): nat
    requires AllDigits(s)
  {
    if s == [] then 0 else 10 * DigitsValue(s[..|s| - 1]) + (s[|s| - 1] as int - '0' as int)
  }

  /** The value of the leading run of digits of `b`; NaN when it is empty. */
  function ParseDigits(b: string): Num {
    var k := DigitRun(b);
    if k == 0 then NaN else Int(DigitsValue(b[..k]))
  }

  function Negate(x: Num): Num {
    match x
    case NaN => NaN
    case Int(v) => Int(-v)
  }

  /** An optional sign, then the digits. */
  function ParseSigned(t: string): Num {
    if t != [] && t[0] == '-' then Negate(ParseDigits(t[1..]))
    else if t != [] && t[0] == '+' then ParseDigits(t[1..])
    else ParseDigits(t)
  }

  /** `parseInt(s, 10)`: skip leading white space, read an optional sign and
      the longest run of digits after it; NaN when that run is empty. */
  function ParseInt(s: string): Num {
    ParseSigned(SkipSpaces(s))
  }

  function DigitChar(d: nat): (c: char)
    requires d < 10
    ensures IsDigit(c)
  {
    ('0' as int + d) as char
  }

  /** The decimal digits of a natural number (`String(n)`). */
  function NatDigits(n: nat): (s: string)
    ensures s != [] && AllDigits(s)
  {
    if n < 10 then [DigitChar(n)] else NatDigits(n / 10) + [DigitChar(n % 10)]
  }

  /** `String(n)` for an integer `n`. */
  function Decimal(n: int): (s: string)
    ensures s != []
  {
    (if n < 0 then "-" else "") + NatDigits(Abs(n))
  }

  function Abs(n: int): nat {
    if n < 0 then -n else n
  }

  lemma {:induction false} DigitsValueOfNatDigits(n: nat)
    ensures DigitsValue(NatDigits(n)) == n
  {
    if n >= 10 {
      DigitsValueOfNatDigits(n / 10);
      var s := NatDigits(n);
      assert s[..|s| - 1] == NatDigits(n / 10);
    }
  }

  lemma {:induction false} DigitRunOfDigits(d: string, tail: string)
    requires AllDigits(d)
    requires tail == [] || !IsDigit(tail[0])
    ensures DigitRun(d + tail) == |d|
  {
    if d != [] {
      assert (d + tail)[1..] == d[1..] + tail;
      DigitRunOfDigits(d[1..], tail);
    }
  }

  lemma ParseDigitsOf(d: string, tail: string)
    requires d != [] && AllDigits(d)
    requires tail == [] || !IsDigit(tail[0])
    ensures ParseDigits(d + tail) == Int(DigitsValue(d))
  {
    DigitRunOfDigits(d, tail);
    assert (d + tail)[..|d|] == d;
  }

  /** A digit run is read exactly when the text starts with a digit, and
      what it reads is never negative. */
  lemma ParseDigitsStart(b: string)
    ensures ParseDigits(b).Int? <==> b != [] && IsDigit(b[0])
    ensures ParseDigits(b).Int? ==> ParseDigits(b).n >= 0
  {
  }

  /** `parseInt` gives a number only when a digit follows the white space
      and an optional sign; an unsigned digit gives a number that is not
      negative, and only a minus sign gives a negative one. */
  lemma ParseIntStart(s: string)
    ensures var t, r := SkipSpaces(s), ParseInt(s);
      && (r.Int? ==> t != [] && (IsDigit(t[0]) || (|t| > 1 && (t[0] == '-' || t[0] == '+') && IsDigit(t[1]))))
      && (t != [] && IsDigit(t[0]) ==> r.Int? && r.n >= 0)
      && (r.Int? && r.n < 0 ==> t[0] == '-')
  {
    var t := SkipSpaces(s);
    SignedStart(t);
  }

  lemma SignedStart(t: string)
    ensures var r := ParseSigned(t);
      && (r.Int? ==> t != [] && (IsDigit(t[0]) || (|t| > 1 && (t[0] == '-' || t[0] == '+') && IsDigit(t[1]))))
      && (t != [] && IsDigit(t[0]) ==> r.Int? && r.n >= 0)
      && (r.Int? && r.n < 0 ==> t[0] == '-')
  {
    if t != [] && (t[0] == '-' || t[0] == '+') {
      ParseDigitsStart(t[1..]);
    } else {
      ParseDigitsStart(t);
    }
  }

  /** A leading white-space character, ASCII or not, does not change what
      `parseInt` reads (`parseInt("\u00A025") == 25`). */
  lemma ParseIntSkipsSpace(c: char, s: string)
    requires IsSpace(c)
    ensures ParseInt([c] + s) == ParseInt(s)
  {
    assert ([c] + s)[1..] == s;
  }

  /** A string that starts with no white space is read from its start. */
  lemma SkipNoSpaces(s: string)
    requires s != [] && !IsSpace(s[0])
    ensures ParseInt(s) == ParseSigned(s)
  {
  }

  lemma ParseIntOfDigits(d: string, tail: string)
    requires d != [] && AllDigits(d)
    requires tail == [] || !IsDigit(tail[0])
    ensures ParseInt(d + tail) == Int(DigitsValue(d))
  {
    var s := d + tail;
    assert s[0] == d[0];
    SkipNoSpaces(s);
    assert ParseSigned(s) == ParseDigits(s);
    ParseDigitsOf(d, tail);
  }

  lemma ConcatAssociates(a: string, b: string, c: string)
    ensures (a + b) + c == a + (b + c)
  {
  }

  /** A leading minus sign negates what follows it. */
  lemma MinusNegates(x: string)
    ensures ParseSigned("-" + x) == Negate(ParseDigits(x))
  {
    assert ("-" + x)[1..] == x;
  }

  lemma ParseIntOfMinus(x: string)
    ensures ParseInt("-" + x) == Negate(ParseDigits(x))
  {
    SkipNoSpaces("-" + x);
    MinusNegates(x);
  }

  lemma ParseIntOfNegativeDigits(d: string, tail: string)
    requires d != [] && AllDigits(d)
    requires tail == [] || !IsDigit(tail[0])
    ensures ParseInt(("-" + d) + tail) == Int(-(DigitsValue(d) as int))
  {
    ConcatAssociates("-", d, tail);
    ParseIntOfMinus(d + tail);
    ParseDigitsOf(d, tail);
  }

  lemma ParseIntReadsNatural(n: int, tail: string)
    requires n >= 0
    requires tail == [] || !IsDigit(tail[0])
    ensures ParseInt(Decimal(n) + tail) == Int(n)
  {
    DigitsValueOfNatDigits(n);
    ParseIntOfDigits(NatDigits(n), tail);
    assert Decimal(n) == "" + NatDigits(Abs(n)) == NatDigits(n);
  }

  lemma ParseIntReadsMinusNat(m: nat, tail: string)
    requires tail == [] || !IsDigit(tail[0])
    ensures ParseInt(("-" + NatDigits(m)) + tail) == Int(-(m as int))
  {
    DigitsValueOfNatDigits(m);
    ParseIntOfNegativeDigits(NatDigits(m), tail);
  }

  lemma ParseIntReadsNegative(n: int, tail: string)
    requires n < 0
    requires tail == [] || !IsDigit(tail[0])
    ensures ParseInt(Decimal(n) + tail) == Int(n)
  {
    ParseIntReadsMinusNat(Abs(n), tail);
    assert Decimal(n) == "-" + NatDigits(Abs(n));
  }

  /** `parseInt` reads back the decimal rendering of any integer, and stops
      at the first character that is not a digit (`parseInt("25abc") == 25`). */
  lemma ParseIntReadsDecimal(n: int, tail: string)
    requires tail == [] || !IsDigit(tail[0])
    ensures ParseInt(Decimal(n) + tail) == Int(n)
  {
    if n < 0 {
      ParseIntReadsNegative(n, tail);
    } else {
      ParseIntReadsNatural(n, tail);
    }
  }

  /** `parseInt` of a string without any digit after the sign is NaN. */
  lemma ParseIntWithoutDigitsIsNaN(s: string)
    requires forall i :: 0 <= i < |s| ==> !IsDigit(s[i])
    ensures ParseInt(s) == NaN
  {
    var t := SkipSpaces(s);
    SkipSpacesIsSuffix(s);
    assert forall i :: 0 <= i < |t| ==> t[i] == s[|s| - |t| + i];
    SignedStart(t);
  }

  /** Skipping white space leaves a suffix of the text. */
  lemma {:induction false} SkipSpacesIsSuffix(s: string)
    ensures SkipSpaces(s) == s[|s| - |SkipSpaces(s)|..]
  {
    if s != [] && IsSpace(s[0]) {
      SkipSpacesIsSuffix(s[1..]);
    }
  }

  // ---------------------------------------------------------------------
  // JSON.parse of the `followers` and `following` filters
  // ---------------------------------------------------------------------

  /** A character a JSON string may hold unescaped: not a quote, not a
      backslash and not a control character (section 7 of RFC 8259). */
  predicate PlainChar(c: char) {
    c != '"' && c != '\\' && c >= ' '
  }

  /** An id that needs no escaping inside a JSON string. */
  predicate PlainId(id: Id) {
    forall i :: 0 <= i < |id| ==> PlainChar(id[i])
  }

  function Quoted(id: Id): string {
    "\"" + id + "\""
  }

  function JoinQuoted(ids: seq<Id>): string {
    if ids == [] then ""
    else if |ids| == 1 then Quoted(ids[0])
    else Quoted(ids[0]) + "," + JoinQuoted(ids[1..])
  }

  /** `JSON.stringify(ids)`: how a client writes the id list. */
  function IdListJson(ids: seq<Id>): string {
    "[" + JoinQuoted(ids) + "]"
  }

  /** The length of the leading run of characters allowed in a plain id. */
  function PlainRun(s: string): (k: nat)
    ensures k <= |s| && PlainId(s[..k])
    ensures k < |s| ==> !PlainChar(s[k])
  {
    if s != [] && PlainChar(s[0]) then
      var k := 1 + PlainRun(s[1..]);
      assert s[..k] == [s[0]] + s[1..][..k - 1];
      k
    else 0
  }

  /** The comma-separated quoted ids between the brackets. */
  function ParseItems(s: string): Option<seq<Id>>
    decreases |s|
  {
    if s == [] || s[0] != '"' then None
    else
      var k := PlainRun(s[1..]);
      if 1 + k >= |s| || s[1 + k] != '"' then None
      else
        var id := s[1..1 + k];
        var rest := s[2 + k..];
        if rest == [] then Some([id])
        else if rest[0] != ',' then None
        else
          match ParseItems(rest[1..])
          case None => None
          case Some(ids) => Some([id] + ids)
  }

  /** `JSON.parse` of a list of ids; `None` stands for the exception it
      throws on anything else. */
  function ParseIdList(s: string): (r: Option<seq<Id>>)
    ensures r.Some? ==> (forall i :: 0 <= i < |r.value| ==> PlainId(r.value[i])) && IdListJson(r.value) == s
  {
    if |s| < 2 || s[0] != '[' || s[|s| - 1] != ']' then None
    else if |s| == 2 then Some([])
    else
      var items := ParseItems(s[1..|s| - 1]);
      if items.Some? then
        BracketedPrintsBack(s);
        items
      else None
  }

  lemma BracketedPrintsBack(s: string)
    requires |s| > 2 && s[0] == '[' && s[|s| - 1] == ']'
    requires ParseItems(s[1..|s| - 1]).Some?
    ensures var ids := ParseItems(s[1..|s| - 1]).value;
      (forall i :: 0 <= i < |ids| ==> PlainId(ids[i])) && IdListJson(ids) == s
  {
    var inner := s[1..|s| - 1];
    ParseItemsPrintsBack(inner);
    assert s == "[" + inner + "]";
  }

  /** Whatever the item parser accepts is exactly what `JoinQuoted` writes
      for the ids it answers. */
  lemma {:induction false} ParseItemsPrintsBack(s: string)
    requires ParseItems(s).Some?
    ensures var ids := ParseItems(s).value;
      && ids != [] && (forall i :: 0 <= i < |ids| ==> PlainId(ids[i]))
      && JoinQuoted(ids) == s
    decreases |s|
  {
    var k := PlainRun(s[1..]);
    var id, rest := s[1..1 + k], s[2 + k..];
    assert id == s[1..][..k];
    assert s == Quoted(id) + rest;
    if rest != [] {
      ParseItemsPrintsBack(rest[1..]);
      var ids := ParseItems(rest[1..]).value;
      assert ParseItems(s).value == [id] + ids;
      assert ([id] + ids)[1..] == ids;
      assert rest == "," + rest[1..];
      ConcatAssociates(Quoted(id), ",", rest[1..]);
    }
  }

  lemma {:induction false} PlainRunOfId(id: Id, tail: string)
    requires PlainId(id)
    requires tail != [] && tail[0] == '"'
    ensures PlainRun(id + tail) == |id|
  {
    if id != [] {
      assert (id + tail)[1..] == id[1..] + tail;
      PlainRunOfId(id[1..], tail);
    }
  }

  /** One quoted plain id, followed by the end or by a comma. */
  lemma ParseOneItem(id: Id, rest: string)
    requires PlainId(id)
    ensures rest == [] ==> ParseItems(Quoted(id) + rest) == Some([id])
    ensures rest != [] && rest[0] == ',' && ParseItems(rest[1..]).Some? ==>
              ParseItems(Quoted(id) + rest) == Some([id] + ParseItems(rest[1..]).value)
  {
    var s := Quoted(id) + rest;
    assert s == "\"" + (id + ("\"" + rest));
    assert s[1..] == id + ("\"" + rest);
    PlainRunOfId(id, "\"" + rest);
    var k := |id|;
    assert 1 + k < |s| && s[1 + k] == '"';
    assert s[1..1 + k] == id;
    assert s[2 + k..] == rest;
  }

  lemma {:induction false} ParseJoinQuoted(ids: seq<Id>)
    requires ids != []
    requires forall i :: 0 <= i < |ids| ==> PlainId(ids[i])
    ensures ParseItems(JoinQuoted(ids)) == Some(ids)
    decreases |ids|
  {
    if |ids| == 1 {
      ParseOneItem(ids[0], "");
      assert JoinQuoted(ids) == Quoted(ids[0]) + "";
      assert ids == [ids[0]];
    } else {
      var q, j := Quoted(ids[0]), JoinQuoted(ids[1..]);
      ParseJoinQuoted(ids[1..]);
      assert JoinQuoted(ids) == (q + ",") + j;
      ConcatAssociates(q, ",", j);
      assert ("," + j)[1..] == j;
      ParseOneItem(ids[0], "," + j);
      assert [ids[0]] + ids[1..] == ids;
    }
  }

  /** Decoding what `JSON.stringify` wrote gives back the same ids. */
  lemma IdListRoundTrip(ids: seq<Id>)
    requires forall i :: 0 <= i < |ids| ==> PlainId(ids[i])
    ensures ParseIdList(IdListJson(ids)) == Some(ids)
  {
    var s := IdListJson(ids);
    if ids != [] {
      ParseJoinQuoted(ids);
      assert |Quoted(ids[0])| >= 2;
      assert s[1..|s| - 1] == JoinQuoted(ids);
    }
  }

  // ---------------------------------------------------------------------
  // The compiled query
  // ---------------------------------------------------------------------

  datatype TextField = FirstName | LastName | Username | Email
  datatype ListField = Followers | Following
  datatype DateField = Birthday | CreatedAt | UpdatedAt

  /** One key of the MongoDB query object. */
  datatype Cond =
    | DeletedAtNull                                  // deleted_at: null
    | IdNotIn(id: Id)                                // _id: {$nin: id}
    | Like(field: TextField, text: string)           // {$regex: '.*text.*', $options: 'i'}
    | VerifiedIs(value: bool)                        // verified: true | false
    | AnyIn(list: ListField, ids: seq<Id>)           // {$in: ids}
    | InRange(date: DateField, after: Option<string>, before: Option<string>)  // {$gt, $lt}

  /** `User.find(query).skip(skip).limit(limit).sort({sortField: sortType})`. */
  datatype Query = Query(conds: seq<Cond>, sortField: string, sortType: Num, skip: Num, limit: Num)

  /** `perPage`: 25 unless `per_page` is given. */
  function PerPage(f: Filter): Num {
    if Given(f, "per_page") then ParseInt(f["per_page"]) else Int(25)
  }

  /** `pageNumber`: 0 unless `page_number` is given. */
  function PageNumber(f: Filter): Num {
    if Given(f, "page_number") then ParseInt(f["page_number"]) else Int(0)
  }

  /** `pageNumber > 0 ? (pageNumber - 1) * perPage : 0`, NaN included. */
  function SkipOf(perPage: Num, pageNumber: Num): Num {
    if pageNumber.Int? && pageNumber.n > 0 then
      if perPage.Int? then Int((pageNumber.n - 1) * perPage.n) else NaN
    else Int(0)
  }

  function TextCond(f: Filter, key: string, field: TextField): seq<Cond> {
    if Given(f, key) then [Like(field, f[key])] else []
  }

  function VerifiedCond(f: Filter): seq<Cond> {
    if "verified" in f && f["verified"] == "true" then [VerifiedIs(true)]
    else if "verified" in f && f["verified"] == "false" then [VerifiedIs(false)]
    else []
  }

  function ListCond(f: Filter, key: string, field: ListField): Result<seq<Cond>> {
    if !Given(f, key) then Ok([])
    else
      match ParseIdList(f[key])
      case None => Err(BadRequest("Unexpected token in JSON"))
      case Some(ids) => Ok([AnyIn(field, ids)])
  }

  /** The filter keys of the lower and upper bound on a date path. */
  function StartKey(field: DateField): string {
    match field
    case Birthday => "start_birthday_at"
    case CreatedAt => "start_created_at"
    case UpdatedAt => "start_updated_at"
  }

  function EndKey(field: DateField): string {
    match field
    case Birthday => "end_birthday_at"
    case CreatedAt => "end_created_at"
    case UpdatedAt => "end_updated_at"
  }

  function RangeCond(f: Filter, field: DateField): seq<Cond> {
    if Given(f, StartKey(field)) || Given(f, EndKey(field)) then
      [InRange(field,
               if Given(f, StartKey(field)) then Some(f[StartKey(field)]) else None,
               if Given(f, EndKey(field)) then Some(f[EndKey(field)]) else None)]
    else []
  }

  /** The sort path: `sort_field` when given, `created_at` otherwise. */
  function SortField(f: Filter): string {
    if Given(f, "sort_field") then f["sort_field"] else "created_at"
  }

  /** The sort direction: the parsed `sort_type` when both `sort_field` and
      `sort_type` are given, -1 otherwise. */
  function SortType(f: Filter): Num {
    if Given(f, "sort_field") && Given(f, "sort_type") then ParseInt(f["sort_type"]) else Int(-1)
  }

  /** `deleted_at: null` and the keys of the exclusion and text filters. */
  function TextConds(f: Filter): seq<Cond> {
    [DeletedAtNull]
    + (if Given(f, "nin") then [IdNotIn(f["nin"])] else [])
    + TextCond(f, "first_name", FirstName)
    + TextCond(f, "last_name", LastName)
    + TextCond(f, "username", Username)
    + TextCond(f, "email", Email)
  }

  /** `deleted_at: null` and the keys of the exclusion, text and verified
      filters. */
  function FieldConds(f: Filter): seq<Cond> {
    TextConds(f) + VerifiedCond(f)
  }

  /** The keys of the three date-range filters. */
  function DateConds(f: Filter): seq<Cond> {
    RangeCond(f, Birthday) + RangeCond(f, CreatedAt) + RangeCond(f, UpdatedAt)
  }

  /** The body of `listUsers` up to the call of `User.find`: the query fails
      only when a `followers` or `following` value is not a JSON id list. */
  function CompileQuery(f: Filter): (r: Result<Query>)
    ensures r.Ok? ==> DeletedAtNull in r.value.conds
    ensures r.Err? <==> ListCond(f, "followers", Followers).Err? || ListCond(f, "following", Following).Err?
  {
    match ListCond(f, "followers", Followers)
    case Err(e) => Err(e)
    case Ok(followers) =>
      match ListCond(f, "following", Following)
      case Err(e) => Err(e)
      case Ok(following) =>
        var perPage := PerPage(f);
        Ok(Query(FieldConds(f) + followers + following + DateConds(f),
                 SortField(f), SortType(f), SkipOf(perPage, PageNumber(f)), perPage))
  }

  // ---------------------------------------------------------------------
  // Evaluation of a query by the store
  // ---------------------------------------------------------------------

  /** ASCII case folding, as the `i` option applies it to letters. */
  function Lower(c: char): char {
    if 'A' <= c <= 'Z' then (c as int + 32) as char else c
  }

  function LowerAll(s: string): (r: string)
    ensures |r| == |s| && forall i :: 0 <= i < |s| ==> r[i] == Lower(s[i])
  {
    seq(|s|, i requires 0 <= i < |s| => Lower(s[i]))
  }

  /** `p` occurs in `s` starting at position `i`. */
  predicate OccursAt(p: string, s: string, i: int)
    requires 0 <= i <= |s| - |p|
  {
    s[i..i + |p|] == p
  }

  /** `p` occurs somewhere in `s`. */
  predicate OccursIn(p: string, s: string) {
    exists i :: 0 <= i <= |s| - |p| && OccursAt(p, s, i)
  }

  /** The regular expression `.*text.*` with option `i` matches `s`. */
  predicate ContainsIgnoringCase(s: string, text: string) {
    OccursIn(LowerAll(text), LowerAll(s))
  }

  /** Mongoose's cast of a range bound to a date: here a timestamp written
      as decimal digits; anything else is a cast error. */
  function CastDate(s: string): Option<int> {
    if s != [] && AllDigits(s) then Some(DigitsValue(s)) else None
  }

  function TextOf(u: User, field: TextField): string {
    match field
    case FirstName => u.firstName
    case LastName => u.lastName
    case Username => u.username
    case Email => u.email
  }

  function ListOf(u: User, field: ListField): seq<Id> {
    match field
    case Followers => u.followers
    case Following => u.following
  }

  /** The stored value a range filter compares. The user schema has no
      `birthday` path, so stored documents never carry one. */
  function DateOf(u: User, field: DateField): Option<int> {
    match field
    case Birthday => None
    case CreatedAt => Some(u.createdAt)
    case UpdatedAt => Some(u.updatedAt)
  }

  /** `after` and `before` are strict bounds on `t`; each bound is cast. */
  predicate Within(t: int, after: Option<string>, before: Option<string>) {
    && (after.Some? ==> CastDate(after.value).Some? && t > CastDate(after.value).value)
    && (before.Some? ==> CastDate(before.value).Some? && t < CastDate(before.value).value)
  }

  /** Whether document `u` satisfies one key of the query. */
  predicate Holds(u: User, c: Cond) {
    match c
    case DeletedAtNull => u.deletedAt.None?
    case IdNotIn(id) => u.id != id
    case Like(field, text) => ContainsIgnoringCase(TextOf(u, field), text)
    case VerifiedIs(b) => u.verified == b
    case AnyIn(field, ids) => exists i :: 0 <= i < |ListOf(u, field)| && ListOf(u, field)[i] in ids
    case InRange(field, after, before) => DateOf(u, field).Some? && Within(DateOf(u, field).value, after, before)
  }

  /** Whether document `u` satisfies every key of the query. */
  predicate Satisfies(u: User, conds: seq<Cond>) {
    forall c :: c in conds ==> Holds(u, c)
  }

  /** Every bound on a date path casts; the query fails otherwise. */
  predicate CastsOk(conds: seq<Cond>) {
    forall c :: c in conds && c.InRange? && c.date != Birthday ==>
      (c.after.Some? ==> CastDate(c.after.value).Some?) &&
      (c.before.Some? ==> CastDate(c.before.value).Some?)
  }

  /** The documents that satisfy the query, in storage order. */
  function Select(docs: seq<User>, conds: seq<Cond>): (r: seq<User>)
    ensures forall u :: u in r <==> u in docs && Satisfies(u, conds)
    ensures |r| <= |docs|
  {
    if docs == [] then []
    else
      assert docs == [docs[0]] + docs[1..];
      (if Satisfies(docs[0], conds) then [docs[0]] else []) + Select(docs[1..], conds)
  }

  /** A sort key as MongoDB compares it: a missing value (or null) first,
      then strings, then booleans, then dates. */
  datatype Key = Missing | Text(s: string) | Flag(b: bool) | Time(t: int)

  function Rank(k: Key): nat {
    match k
    case Missing => 0
    case Text(_) => 1
    case Flag(_) => 2
    case Time(_) => 3
  }

  /** Lexicographic order on strings, character by character. */
  predicate TextLe(a: string, b: string) {
    if a == [] then true
    else if b == [] then false
    else if a[0] != b[0] then a[0] < b[0]
    else TextLe(a[1..], b[1..])
  }

  predicate KeyLe(a: Key, b: Key) {
    if Rank(a) != Rank(b) then Rank(a) < Rank(b)
    else
      match (a, b)
      case (Text(x), Text(y)) => TextLe(x, y)
      case (Flag(x), Flag(y)) => !x || y
      case (Time(x), Time(y)) => x <= y
      case _ => true
  }

  lemma {:induction false} TextLeTotal(a: string, b: string)
    ensures TextLe(a, b) || TextLe(b, a)
  {
    if a != [] && b != [] && a[0] == b[0] {
      TextLeTotal(a[1..], b[1..]);
    }
  }

  lemma {:induction false} TextLeTransitive(a: string, b: string, c: string)
    requires TextLe(a, b) && TextLe(b, c)
    ensures TextLe(a, c)
  {
    if a != [] && b != [] && c != [] && a[0] == b[0] && b[0] == c[0] {
      TextLeTransitive(a[1..], b[1..], c[1..]);
    }
  }

  /** Key `a` may be listed ahead of key `b` in the given direction. */
  predicate Before(a: Key, b: Key, ascending: bool) {
    if ascending then KeyLe(a, b) else KeyLe(b, a)
  }

  lemma BeforeTotal(a: Key, b: Key, ascending: bool)
    ensures Before(a, b, ascending) || Before(b, a, ascending)
  {
    if a.Text? && b.Text? {
      TextLeTotal(a.s, b.s);
    }
  }

  lemma BeforeTransitive(a: Key, b: Key, c: Key, ascending: bool)
    requires Before(a, b, ascending) && Before(b, c, ascending)
    ensures Before(a, c, ascending)
  {
    if a.Text? && b.Text? && c.Text? {
      if ascending {
        TextLeTransitive(a.s, b.s, c.s);
      } else {
        TextLeTransitive(c.s, b.s, a.s);
      }
    }
  }

  predicate SortedBy<T>(s: seq<T>, key: T -> Key, ascending: bool) {
    forall i, j :: 0 <= i < j < |s| ==> Before(key(s[i]), key(s[j]), ascending)
  }

  /** Insert `x` into a sorted list ahead of every element it ties with, so
      that earlier documents stay ahead of later ones on equal keys. */
  function Insert<T(==)>(x: T, s: seq<T>, key: T -> Key, ascending: bool): (r: seq<T>)
    ensures multiset(r) == multiset(s) + multiset{x}
  {
    if s == [] then [x]
    else if !Before(key(x), key(s[0]), ascending) then
      assert s == [s[0]] + s[1..];
      [s[0]] + Insert(x, s[1..], key, ascending)
    else [x] + s
  }

  /** An element that may precede every element of a sorted list may head it. */
  lemma ConsSorted<T>(y: T, t: seq<T>, key: T -> Key, ascending: bool)
    requires SortedBy(t, key, ascending)
    requires forall j :: 0 <= j < |t| ==> Before(key(y), key(t[j]), ascending)
    ensures SortedBy([y] + t, key, ascending)
  {
    var r := [y] + t;
    forall i, j | 0 <= i < j < |r| ensures Before(key(r[i]), key(r[j]), ascending) {
      assert r[j] == t[j - 1];
      if i > 0 { assert r[i] == t[i - 1]; }
    }
  }

  /** `y` may precede every element of `t` when it may precede `x` and every
      element of `s`, and `t` holds only `x` and elements of `s`. */
  lemma BeforeEvery<T>(y: T, x: T, s: seq<T>, t: seq<T>, key: T -> Key, ascending: bool)
    requires multiset(t) == multiset(s) + multiset{x}
    requires Before(key(y), key(x), ascending)
    requires forall k :: 0 <= k < |s| ==> Before(key(y), key(s[k]), ascending)
    ensures forall j :: 0 <= j < |t| ==> Before(key(y), key(t[j]), ascending)
  {
    forall j | 0 <= j < |t| ensures Before(key(y), key(t[j]), ascending) {
      assert t[j] in multiset(t);
      if t[j] != x {
        assert t[j] in multiset(s);
        var k :| 0 <= k < |s| && s[k] == t[j];
      }
    }
  }

  lemma {:induction false} InsertSorted<T>(x: T, s: seq<T>, key: T -> Key, ascending: bool)
    requires SortedBy(s, key, ascending)
    ensures SortedBy(Insert(x, s, key, ascending), key, ascending)
  {
    if s == [] {
    } else if !Before(key(x), key(s[0]), ascending) {
      BeforeTotal(key(x), key(s[0]), ascending);
      InsertSorted(x, s[1..], key, ascending);
      var t := Insert(x, s[1..], key, ascending);
      BeforeEvery(s[0], x, s[1..], t, key, ascending);
      ConsSorted(s[0], t, key, ascending);
    } else {
      forall j | 0 <= j < |s| ensures Before(key(x), key(s[j]), ascending) {
        if j > 0 { BeforeTransitive(key(x), key(s[0]), key(s[j]), ascending); }
      }
      ConsSorted(x, s, key, ascending);
    }
  }

  /** A stable insertion sort on a key. */
  function SortBy<T(==)>(s: seq<T>, key: T -> Key, ascending: bool): (r: seq<T>)
    ensures multiset(r) == multiset(s)
    ensures SortedBy(r, key, ascending)
  {
    if s == [] then []
    else
      assert s == [s[0]] + s[1..];
      var rest := SortBy(s[1..], key, ascending);
      InsertSorted(s[0], rest, key, ascending);
      Insert(s[0], rest, key, ascending)
  }

  /** When every key is `Missing`, sorting keeps the input order. */
  lemma {:induction false} SortByAllMissing<T>(s: seq<T>, key: T -> Key, ascending: bool)
    requires forall i :: 0 <= i < |s| ==> key(s[i]) == Missing
    ensures SortBy(s, key, ascending) == s
  {
    if s != [] {
      SortByAllMissing(s[1..], key, ascending);
      assert s == [s[0]] + s[1..];
    }
  }

  function OptionalText(v: Option<string>): Key {
    if v.Some? then Text(v.value) else Missing
  }

  /** The scalar paths of the user schema, the ones a sort can order on. */
  const ScalarPaths: set<string> := {
    "_id", "first_name", "last_name", "username", "email", "password", "profile_image",
    "email_activation_key", "forgot_password_token", "verified", "created_at", "updated_at",
    "deleted_at"
  }

  /** The value of path `field` in document `u`, as a sort key. Array paths
      and paths the schema does not have give `Missing` for every document. */
  function KeyOf(u: User, field: string): (k: Key)
    ensures field !in ScalarPaths ==> k == Missing
  {
    if field == "_id" then Text(u.id)
    else if field == "first_name" then Text(u.firstName)
    else if field == "last_name" then Text(u.lastName)
    else if field == "username" then Text(u.username)
    else if field == "email" then Text(u.email)
    else if field == "password" then Text(u.password)
    else if field == "profile_image" then OptionalText(u.profileImage)
    else if field == "email_activation_key" then OptionalText(u.emailActivationKey)
    else if field == "forgot_password_token" then OptionalText(u.forgotPasswordToken)
    else if field == "verified" then Flag(u.verified)
    else if field == "created_at" then Time(u.createdAt)
    else if field == "updated_at" then Time(u.updatedAt)
    else if field == "deleted_at" then (if u.deletedAt.Some? then Time(u.deletedAt.value) else Missing)
    else Missing
  }

  /** The documents sorted on path `field`. */
  function SortOn(s: seq<User>, field: string, ascending: bool): (r: seq<User>)
    ensures multiset(r) == multiset(s)
    ensures forall i, j :: 0 <= i < j < |r| ==> Before(KeyOf(r[i], field), KeyOf(r[j], field), ascending)
  {
    SortBy(s, u => KeyOf(u, field), ascending)
  }

  /** Sorting on a path that is not a scalar path of the schema (an unknown
      name, or an array such as `followers`) keeps the storage order. */
  lemma SortOnUnknownPathKeepsOrder(s: seq<User>, field: string, ascending: bool)
    requires field !in ScalarPaths
    ensures SortOn(s, field, ascending) == s
  {
    SortByAllMissing(s, u => KeyOf(u, field), ascending);
  }

  /** How the store reads the limit: 0 is no limit, a negative limit returns
      at most its absolute value, NaN is refused. */
  datatype Limit = Unlimited | AtMost(n: nat)

  function LimitOf(limit: Num): Option<Limit> {
    match limit
    case NaN => None
    case Int(n) => if n == 0 then Some(Unlimited) else Some(AtMost(if n < 0 then -n else n))
  }

  /** How the store reads the skip: only a non-negative integer is accepted. */
  function SkipCount(skip: Num): Option<nat> {
    if skip.Int? && skip.n >= 0 then Some(skip.n) else None
  }

  /** How the query builder reads the sort direction (`String(v || 1)`):
      1, and the falsy 0 and NaN, sort ascending; -1 descending; anything
      else is refused. */
  function Ascending(sortType: Num): Option<bool> {
    match sortType
    case NaN => Some(true)
    case Int(n) => if n == 0 || n == 1 then Some(true) else if n == -1 then Some(false) else None
  }

  /** Drop `skip` documents, then keep at most the limit. */
  function Page(s: seq<User>, skip: nat, limit: Limit): (r: seq<User>)
    ensures |r| == if skip >= |s| then 0
                   else if limit.AtMost? && limit.n < |s| - skip then limit.n
                   else |s| - skip
    ensures forall i :: 0 <= i < |r| ==> r[i] == s[skip + i]
  {
    var rest := if skip <= |s| then s[skip..] else [];
    match limit
    case Unlimited => rest
    case AtMost(n) => if n <= |rest| then rest[..n] else rest
  }

  /** Running query `q` over the collection `docs`, given in natural storage
      order: filter, sort, skip, limit. */
  function RunQuery(q: Query, docs: seq<User>): (r: Result<seq<User>>)
    ensures r.Ok? ==> forall u :: u in r.value ==> u in docs && Satisfies(u, q.conds)
  {
    if Ascending(q.sortType).None? then Err(BadRequest("Invalid sort value"))
    else if !CastsOk(q.conds) || SkipCount(q.skip).None? || LimitOf(q.limit).None? then Err(StoreFailure)
    else
      var sorted := SortOn(Select(docs, q.conds), q.sortField, Ascending(q.sortType).value);
      var page := Page(sorted, SkipCount(q.skip).value, LimitOf(q.limit).value);
      assert forall i :: 0 <= i < |page| ==> page[i] in multiset(sorted);
      Ok(page)
  }

  /** The documents that match query `q`, in the order it sorts them. */
  function Ranked(q: Query, docs: seq<User>): (r: seq<User>)
    requires Ascending(q.sortType).Some?
    ensures multiset(r) == multiset(Select(docs, q.conds))
  {
    SortOn(Select(docs, q.conds), q.sortField, Ascending(q.sortType).value)
  }

  /** `listUsers(filter)` over the collection `docs` in storage order. */
  function ListUsers(f: Filter, docs: seq<User>): (r: Result<seq<User>>)
    ensures r.Ok? ==> forall u :: u in r.value ==> u in docs && u.deletedAt.None?
    ensures CompileQuery(f).Err? ==> r == Err(BadRequest("Unexpected token in JSON"))
  {
    match CompileQuery(f)
    case Err(e) => Err(e)
    case Ok(q) => RunQuery(q, docs)
  }

  // ---------------------------------------------------------------------
  // Properties of listUsers
  // ---------------------------------------------------------------------

  /** Without paging keys, the first 25 documents are listed. */
  lemma DefaultPaging(f: Filter)
    requires !Given(f, "per_page") && !Given(f, "page_number")
    requires CompileQuery(f).Ok?
    ensures CompileQuery(f).value.skip == Int(0) && CompileQuery(f).value.limit == Int(25)
  {
  }

  /** `per_page = n` and `page_number = p` skip `(p - 1) * n` documents when
      `p > 0`, none otherwise, and keep at most `n`. */
  lemma Paging(f: Filter, n: int, p: int)
    requires "per_page" in f && f["per_page"] == Decimal(n)
    requires "page_number" in f && f["page_number"] == Decimal(p)
    requires CompileQuery(f).Ok?
    ensures CompileQuery(f).value.skip == Int(if p > 0 then (p - 1) * n else 0)
    ensures CompileQuery(f).value.limit == Int(n)
  {
    ParseIntReadsDecimal(n, "");
    ParseIntReadsDecimal(p, "");
    assert Decimal(n) + "" == Decimal(n) && Decimal(p) + "" == Decimal(p);
    assert PerPage(f) == Int(n) && PageNumber(f) == Int(p);
  }

  /** Without `sort_field` the newest documents come first; with it and
      without `sort_type` its direction is -1; otherwise it is the parsed
      `sort_type`. */
  lemma SortChoice(f: Filter)
    requires CompileQuery(f).Ok?
    ensures !Given(f, "sort_field") ==>
              CompileQuery(f).value.sortField == "created_at" && CompileQuery(f).value.sortType == Int(-1)
    ensures Given(f, "sort_field") ==> CompileQuery(f).value.sortField == f["sort_field"]
    ensures Given(f, "sort_field") && !Given(f, "sort_type") ==> CompileQuery(f).value.sortType == Int(-1)
    ensures Given(f, "sort_field") && Given(f, "sort_type") ==>
              CompileQuery(f).value.sortType == ParseInt(f["sort_type"])
  {
  }

  /** The listing is the window of the sorted matching documents that the
      compiled skip and limit select. */
  lemma ListingIsWindow(f: Filter, docs: seq<User>)
    requires ListUsers(f, docs).Ok?
    ensures var q := CompileQuery(f).value;
      && Ascending(q.sortType).Some? && SkipCount(q.skip).Some? && LimitOf(q.limit).Some?
      && ListUsers(f, docs).value == Page(Ranked(q, docs), SkipCount(q.skip).value, LimitOf(q.limit).value)
  {
  }

  /** Soft-deleted users never appear in a listing. */
  lemma ListingExcludesDeleted(f: Filter, docs: seq<User>)
    requires ListUsers(f, docs).Ok?
    ensures forall u :: u in ListUsers(f, docs).value ==> u in docs && u.deletedAt.None?
  {
  }

  lemma FieldCondsMembers(f: Filter)
    ensures var conds := FieldConds(f);
      && (Given(f, "first_name") ==> Like(FirstName, f["first_name"]) in conds)
      && (Given(f, "last_name") ==> Like(LastName, f["last_name"]) in conds)
      && (Given(f, "username") ==> Like(Username, f["username"]) in conds)
      && (Given(f, "email") ==> Like(Email, f["email"]) in conds)
      && ("verified" in f && f["verified"] == "true" ==> VerifiedIs(true) in conds)
      && ("verified" in f && f["verified"] == "false" ==> VerifiedIs(false) in conds)
      && (Given(f, "nin") ==> IdNotIn(f["nin"]) in conds)
  {
  }

  /** The compiled conditions, group by group. */
  lemma CondsOf(f: Filter)
    requires CompileQuery(f).Ok?
    ensures ListCond(f, "followers", Followers).Ok? && ListCond(f, "following", Following).Ok?
    ensures CompileQuery(f).value.conds ==
              FieldConds(f) + ListCond(f, "followers", Followers).value
              + ListCond(f, "following", Following).value + DateConds(f)
  {
  }

  /** A listed user satisfies every condition of the compiled query. */
  lemma ListedSatisfy(f: Filter, docs: seq<User>, u: User)
    requires ListUsers(f, docs).Ok? && u in ListUsers(f, docs).value
    ensures CompileQuery(f).Ok? && Satisfies(u, CompileQuery(f).value.conds)
  {
  }

  /** A listed user satisfies every key of the exclusion, text and verified
      filters. */
  lemma ListedSatisfyFieldConds(f: Filter, docs: seq<User>, u: User)
    requires ListUsers(f, docs).Ok? && u in ListUsers(f, docs).value
    ensures forall c :: c in FieldConds(f) ==> Holds(u, c)
  {
    ListedSatisfy(f, docs, u);
    CondsOf(f);
  }

  /** What the exclusion, text and verified keys ask of a document. */
  lemma FieldCondsMeaning(f: Filter, u: User)
    requires forall c :: c in FieldConds(f) ==> Holds(u, c)
    ensures Given(f, "first_name") ==> ContainsIgnoringCase(u.firstName, f["first_name"])
    ensures Given(f, "last_name") ==> ContainsIgnoringCase(u.lastName, f["last_name"])
    ensures Given(f, "username") ==> ContainsIgnoringCase(u.username, f["username"])
    ensures Given(f, "email") ==> ContainsIgnoringCase(u.email, f["email"])
    ensures "verified" in f && f["verified"] == "true" ==> u.verified
    ensures "verified" in f && f["verified"] == "false" ==> !u.verified
    ensures Given(f, "nin") ==> u.id != f["nin"]
  {
    FieldCondsMembers(f);
    if Given(f, "first_name") { assert Holds(u, Like(FirstName, f["first_name"])); }
    if Given(f, "last_name") { assert Holds(u, Like(LastName, f["last_name"])); }
    if Given(f, "username") { assert Holds(u, Like(Username, f["username"])); }
    if Given(f, "email") { assert Holds(u, Like(Email, f["email"])); }
    if "verified" in f && f["verified"] == "true" { assert Holds(u, VerifiedIs(true)); }
    if "verified" in f && f["verified"] == "false" { assert Holds(u, VerifiedIs(false)); }
    if Given(f, "nin") { assert Holds(u, IdNotIn(f["nin"])); }
  }

  /** Every listed user satisfies every text, verified and exclusion filter
      the request gives. */
  lemma ListingHonoursFilters(f: Filter, docs: seq<User>, u: User)
    requires ListUsers(f, docs).Ok? && u in ListUsers(f, docs).value
    ensures Given(f, "first_name") ==> ContainsIgnoringCase(u.firstName, f["first_name"])
    ensures Given(f, "last_name") ==> ContainsIgnoringCase(u.lastName, f["last_name"])
    ensures Given(f, "username") ==> ContainsIgnoringCase(u.username, f["username"])
    ensures Given(f, "email") ==> ContainsIgnoringCase(u.email, f["email"])
    ensures "verified" in f && f["verified"] == "true" ==> u.verified
    ensures "verified" in f && f["verified"] == "false" ==> !u.verified
    ensures Given(f, "nin") ==> u.id != f["nin"]
  {
    ListedSatisfyFieldConds(f, docs, u);
    FieldCondsMeaning(f, u);
  }

  /** Removing `verified` leaves every other key as it was. */
  lemma OtherKeysKept(f: Filter, k: string)
    requires k != "verified"
    ensures Given(f - {"verified"}, k) == Given(f, k)
    ensures k in f ==> (f - {"verified"})[k] == f[k]
  {
  }

  lemma TextCondsIgnoreVerified(f: Filter)
    ensures TextConds(f - {"verified"}) == TextConds(f)
  {
    OtherKeysKept(f, "nin");
    OtherKeysKept(f, "first_name");
    OtherKeysKept(f, "last_name");
    OtherKeysKept(f, "username");
    OtherKeysKept(f, "email");
  }

  lemma ListCondsIgnoreVerified(f: Filter)
    ensures ListCond(f - {"verified"}, "followers", Followers) == ListCond(f, "followers", Followers)
    ensures ListCond(f - {"verified"}, "following", Following) == ListCond(f, "following", Following)
  {
    OtherKeysKept(f, "followers");
    OtherKeysKept(f, "following");
  }

  lemma DateCondsIgnoreVerified(f: Filter)
    ensures DateConds(f - {"verified"}) == DateConds(f)
  {
    OtherKeysKept(f, StartKey(Birthday));
    OtherKeysKept(f, EndKey(Birthday));
    OtherKeysKept(f, StartKey(CreatedAt));
    OtherKeysKept(f, EndKey(CreatedAt));
    OtherKeysKept(f, StartKey(UpdatedAt));
    OtherKeysKept(f, EndKey(UpdatedAt));
    assert RangeCond(f - {"verified"}, Birthday) == RangeCond(f, Birthday);
    assert RangeCond(f - {"verified"}, CreatedAt) == RangeCond(f, CreatedAt);
    assert RangeCond(f - {"verified"}, UpdatedAt) == RangeCond(f, UpdatedAt);
  }

  lemma PagingIgnoresVerified(f: Filter)
    ensures PerPage(f - {"verified"}) == PerPage(f) && PageNumber(f - {"verified"}) == PageNumber(f)
    ensures SortField(f - {"verified"}) == SortField(f) && SortType(f - {"verified"}) == SortType(f)
  {
    OtherKeysKept(f, "per_page");
    OtherKeysKept(f, "page_number");
    OtherKeysKept(f, "sort_field");
    OtherKeysKept(f, "sort_type");
  }

  /** A `verified` value other than the exact strings "true" and "false"
      compiles to the same query as no `verified` key at all. */
  lemma VerifiedIgnoredUnlessBoolean(f: Filter)
    requires "verified" in f && f["verified"] != "true" && f["verified"] != "false"
    ensures CompileQuery(f) == CompileQuery(f - {"verified"})
  {
    var g := f - {"verified"};
    TextCondsIgnoreVerified(f);
    ListCondsIgnoreVerified(f);
    DateCondsIgnoreVerified(f);
    PagingIgnoresVerified(f);
    assert VerifiedCond(f) == [] == VerifiedCond(g);
    assert FieldConds(f) == FieldConds(g);
  }

  /** A listed user satisfies every key of the date-range filters. */
  lemma ListedSatisfyDateConds(f: Filter, docs: seq<User>, u: User)
    requires ListUsers(f, docs).Ok? && u in ListUsers(f, docs).value
    ensures forall c :: c in DateConds(f) ==> Holds(u, c)
  {
    ListedSatisfy(f, docs, u);
    CondsOf(f);
  }

  /** No document satisfies a bound on `birthday`. */
  lemma BirthdayBoundFails(f: Filter, u: User)
    ensures Given(f, StartKey(Birthday)) || Given(f, EndKey(Birthday)) ==>
              !(forall c :: c in DateConds(f) ==> Holds(u, c))
  {
    if Given(f, StartKey(Birthday)) || Given(f, EndKey(Birthday)) {
      var c := RangeCond(f, Birthday)[0];
      assert c in DateConds(f) && !Holds(u, c);
    }
  }

  /** A range bound on `birthday` empties the listing: the user schema has
      no such path, so no stored document can satisfy it. */
  lemma BirthdayRangeListsNobody(f: Filter, docs: seq<User>)
    requires Given(f, "start_birthday_at") || Given(f, "end_birthday_at")
    requires ListUsers(f, docs).Ok?
    ensures ListUsers(f, docs).value == []
  {
    var page := ListUsers(f, docs).value;
    if page != [] {
      var u := page[0];
      ListedSatisfyDateConds(f, docs, u);
      BirthdayBoundFails(f, u);
      assert false;
    }
  }

  /** What the bounds on `created_at` and `updated_at` ask of a document. */
  lemma DateCondsMeaning(f: Filter, u: User, field: DateField)
    requires field != Birthday
    requires forall c :: c in DateConds(f) ==> Holds(u, c)
    ensures DateOf(u, field).Some?
    ensures Given(f, StartKey(field)) ==>
              (CastDate(f[StartKey(field)]).Some? && DateOf(u, field).value > CastDate(f[StartKey(field)]).value)
    ensures Given(f, EndKey(field)) ==>
              (CastDate(f[EndKey(field)]).Some? && DateOf(u, field).value < CastDate(f[EndKey(field)]).value)
  {
    if Given(f, StartKey(field)) || Given(f, EndKey(field)) {
      var c := RangeCond(f, field)[0];
      assert c in DateConds(f);
      assert Holds(u, c);
    }
  }

  /** `start_created_at = a` lists only users created strictly after `a`,
      `end_created_at = b` only users created strictly before `b`, and both
      give both bounds; likewise for `updated_at`. A bound that is not a
      timestamp fails the whole listing. */
  lemma ListingHonoursRange(f: Filter, docs: seq<User>, u: User, field: DateField)
    requires field != Birthday
    requires ListUsers(f, docs).Ok? && u in ListUsers(f, docs).value
    ensures DateOf(u, field).Some?
    ensures Given(f, StartKey(field)) ==>
              (CastDate(f[StartKey(field)]).Some? && DateOf(u, field).value > CastDate(f[StartKey(field)]).value)
    ensures Given(f, EndKey(field)) ==>
              (CastDate(f[EndKey(field)]).Some? && DateOf(u, field).value < CastDate(f[EndKey(field)]).value)
  {
    ListedSatisfyDateConds(f, docs, u);
    DateCondsMeaning(f, u, field);
  }

  /** What a `followers` or `following` key asks of a document. */
  lemma ListCondMeaning(f: Filter, key: string, field: ListField, u: User)
    requires ListCond(f, key, field).Ok?
    requires forall c :: c in ListCond(f, key, field).value ==> Holds(u, c)
    ensures Given(f, key) ==>
              (ParseIdList(f[key]).Some? &&
               exists i :: 0 <= i < |ListOf(u, field)| && ListOf(u, field)[i] in ParseIdList(f[key]).value)
  {
    if Given(f, key) {
      assert Holds(u, ListCond(f, key, field).value[0]);
    }
  }

  /** A listed user satisfies both membership keys. */
  lemma ListedSatisfyListConds(f: Filter, docs: seq<User>, u: User)
    requires ListUsers(f, docs).Ok? && u in ListUsers(f, docs).value
    ensures ListCond(f, "followers", Followers).Ok? && ListCond(f, "following", Following).Ok?
    ensures forall c :: c in ListCond(f, "followers", Followers).value ==> Holds(u, c)
    ensures forall c :: c in ListCond(f, "following", Following).value ==> Holds(u, c)
  {
    ListedSatisfy(f, docs, u);
    CondsOf(f);
  }

  /** A listed user shares at least one id with each `followers` and
      `following` list the request gives. */
  lemma ListingHonoursMembership(f: Filter, docs: seq<User>, u: User)
    requires ListUsers(f, docs).Ok? && u in ListUsers(f, docs).value
    ensures Given(f, "followers") ==>
              (ParseIdList(f["followers"]).Some? &&
               exists i :: 0 <= i < |u.followers| && u.followers[i] in ParseIdList(f["followers"]).value)
    ensures Given(f, "following") ==>
              (ParseIdList(f["following"]).Some? &&
               exists i :: 0 <= i < |u.following| && u.following[i] in ParseIdList(f["following"]).value)
  {
    ListedSatisfyListConds(f, docs, u);
    ListCondMeaning(f, "followers", Followers, u);
    ListCondMeaning(f, "following", Following, u);
  }

  /** When the compiled query skips `skip` documents and keeps at most
      `n > 0` (by `Paging`, `skip = (p - 1) * n` for `page_number = p > 0`
      and `per_page = n`), the listing is the stretch of the sorted matching
      documents that starts at `skip` and is at most `n` long. */
  lemma PageIsWindow(f: Filter, docs: seq<User>, skip: nat, n: nat)
    requires n > 0
    requires CompileQuery(f).Ok? && CompileQuery(f).value.skip == Int(skip) && CompileQuery(f).value.limit == Int(n)
    requires ListUsers(f, docs).Ok?
    ensures Ascending(CompileQuery(f).value.sortType).Some?
    ensures var sorted := Ranked(CompileQuery(f).value, docs);
      var page := ListUsers(f, docs).value;
      && |page| == (if skip >= |sorted| then 0 else if n < |sorted| - skip then n else |sorted| - skip)
      && forall i :: 0 <= i < |page| ==> page[i] == sorted[skip + i]
  {
    ListingIsWindow(f, docs);
  }
}
