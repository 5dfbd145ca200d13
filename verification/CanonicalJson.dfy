/** The canonical JSON printer that the stores, the broker and the guardrail service key, hash and sign by.
    Its texts follow the grammar of sections 4 to 7 of RFC 8259. Object keys are sorted with a comparator:
    the idempotency store sorts by code unit, the broker and the guardrail service by locale. */
module CanonicalJson {
  import opened Outcomes

  /** A JSON value. A number is the token it prints as; members keep their insertion order. */
  datatype Member = Member(key: string, value: Json)

  datatype Json =
    | Null
    | Bool(b: bool)
    | Num(text: string)
    | Str(s: string)
    | Arr(items: seq<Json>)
    | Obj(members: seq<Member>)

  predicate NumberChar(c: char) {
    '0' <= c <= '9' || c == '-' || c == '+' || c == '.' || c == 'e' || c == 'E'
  }

  predicate NumberToken(s: string) {
    && s != "" && ('0' <= s[0] <= '9' || s[0] == '-')
    && forall i :: 0 <= i < |s| ==> NumberChar(s[i])
  }

  predicate DistinctKeys(members: seq<Member>) {
    forall i, j :: 0 <= i < j < |members| ==> members[i].key != members[j].key
  }

  predicate Valid(v: Json) {
    match v
    case Num(text) => NumberToken(text)
    case Arr(items) => forall i :: 0 <= i < |items| ==> Valid(items[i])
    case Obj(members) => DistinctKeys(members) && forall i :: 0 <= i < |members| ==> Valid(members[i].value)
    case _ => true
  }

  // ---------------------------------------------------------------------------
  // Printing
  // ---------------------------------------------------------------------------

  function HexDigit(n: nat): char
    requires n < 16
  {
    "0123456789abcdef"[n]
  }

  /** The letter of a two-character escape; zero when the character has none. */
  function Letter(c: char): char {
    if c == '\"' then '\"'
    else if c == '\\' then '\\'
    else if c == '\n' then 'n'
    else if c == '\r' then 'r'
    else if c == '\t' then 't'
    else if c as int == 8 then 'b'
    else if c as int == 12 then 'f'
    else '\0'
  }

  function EscapeChar(c: char): string {
    if Letter(c) != '\0' then ['\\', Letter(c)]
    else if c as int < 16 then ['\\', 'u', '0', '0', '0', HexDigit(c as int)]
    else if c as int < 32 then ['\\', 'u', '0', '0', '1', HexDigit(c as int - 16)]
    else [c]
  }

  function Escape(s: string): string {
    if s == "" then "" else EscapeChar(s[0]) + Escape(s[1..])
  }

  function Quote(s: string): string {
    "\"" + Escape(s) + "\""
  }

  function Join(parts: seq<string>): string {
    if parts == [] then ""
    else if |parts| == 1 then parts[0]
    else parts[0] + "," + Join(parts[1..])
  }

  function Print(v: Json): string
    decreases v, 0
  {
    match v
    case Null => "null"
    case Bool(b) => if b then "true" else "false"
    case Num(text) => text
    case Str(s) => Quote(s)
    case Arr(items) => "[" + Join(PrintItems(items)) + "]"
    case Obj(members) => "{" + Join(PrintMembers(members)) + "}"
  }

  function PrintItems(items: seq<Json>): (parts: seq<string>)
    ensures |parts| == |items|
    decreases items
  {
    if items == [] then [] else [Print(items[0])] + PrintItems(items[1..])
  }

  function PrintMembers(members: seq<Member>): (parts: seq<string>)
    ensures |parts| == |members|
    decreases members
  {
    if members == [] then []
    else [Quote(members[0].key) + ":" + Print(members[0].value)] + PrintMembers(members[1..])
  }

  // ---------------------------------------------------------------------------
  // Escapes read back (section 7 of RFC 8259)
  // ---------------------------------------------------------------------------

  predicate IsHex(c: char) {
    '0' <= c <= '9' || 'a' <= c <= 'f' || 'A' <= c <= 'F'
  }

  function HexOf(c: char): nat
    requires IsHex(c)
  {
    if c <= '9' then c as int - '0' as int
    else if c <= 'F' then c as int - 'A' as int + 10 else c as int - 'a' as int + 10
  }

  /** The first character that a string body spells, and how many characters it takes to. */
  function FirstRead(t: string): Option<(char, nat)> {
    if t == "" || t[0] == '\"' || t[0] < ' ' then None
    else if t[0] != '\\' then Some((t[0], 1))
    else if |t| < 2 then None
    else
      match t[1]
      case '\"' => Some(('\"', 2))
      case '\\' => Some(('\\', 2))
      case '/' => Some(('/', 2))
      case 'b' => Some((8 as char, 2))
      case 't' => Some((9 as char, 2))
      case 'n' => Some((10 as char, 2))
      case 'f' => Some((12 as char, 2))
      case 'r' => Some((13 as char, 2))
      case 'u' =>
        if |t| < 6 || !IsHex(t[2]) || !IsHex(t[3]) || !IsHex(t[4]) || !IsHex(t[5]) then None
        else
          var unit := ((HexOf(t[2]) * 16 + HexOf(t[3])) * 16 + HexOf(t[4])) * 16 + HexOf(t[5]);
          if unit < 0xD800 then Some((unit as char, 6)) else None
      case _ => None
  }

  /** A reader of string bodies; it takes no unit beyond the surrogates' start from its number. */
  function Unescape(t: string): Option<string>
    decreases |t|
  {
    if t == "" then Some("")
    else
      match FirstRead(t)
      case None => None
      case Some((c, n)) =>
        if n > |t| then None
        else
          match Unescape(t[n..])
          case None => None
          case Some(rest) => Some([c] + rest)
  }

  lemma FirstReadsBack(c: char, rest: string)
    ensures var e := EscapeChar(c);
      && FirstRead(e + rest) == Some((c, |e|)) && 0 < |e| && (e + rest)[|e|..] == rest
      && |e| == if c in "\"\\\n\r\t" || c as int == 8 || c as int == 12 then 2 else if c < ' ' then 6 else 1
  {
    var e := EscapeChar(c);
    var t := e + rest;
    assert forall i :: 0 <= i < |e| ==> t[i] == e[i];
    if |e| == 6 {
      var n := if c as int < 16 then c as int else c as int - 16;
      HexDigitReads(n);
    }
  }

  lemma HexDigitReads(n: nat)
    requires n < 16
    ensures IsHex(HexDigit(n)) && HexOf(HexDigit(n)) == n
  {
  }

  /** Any reader of JSON strings gets the text back that was quoted; control characters, quotes and backslashes are
      escaped in their shortest form and nothing else is. */
  lemma {:induction false} EscapeReadsBack(s: string)
    ensures Unescape(Escape(s)) == Some(s)
  {
    if s != "" {
      var rest := Escape(s[1..]);
      FirstReadsBack(s[0], rest);
      EscapeReadsBack(s[1..]);
      assert [s[0]] + s[1..] == s;
    }
  }

  /** The number texts of section 6 of RFC 8259 are tokens. */
  lemma NumbersAreTokens(sign: string, whole: string, fraction: string, exponent: string)
    requires sign == "" || sign == "-"
    requires whole != "" && Decimal(whole)
    requires fraction == "" || (fraction[0] == '.' && Decimal(fraction[1..]))
    requires exponent == "" || ((exponent[0] == 'e' || exponent[0] == 'E') && |exponent| > 1
      && (exponent[1] == '+' || exponent[1] == '-' || '0' <= exponent[1] <= '9') && Decimal(exponent[2..]))
    ensures NumberToken(sign + whole + fraction + exponent)
  {
    var s := sign + whole + fraction + exponent;
    assert forall i :: 0 < i < |fraction| ==> fraction[i] == fraction[1..][i - 1];
    assert forall i :: 1 < i < |exponent| ==> exponent[i] == exponent[2..][i - 2];
    forall i | 0 <= i < |s| ensures NumberChar(s[i]) {
      var j := i - |sign|;
      if 0 <= j < |whole| {
        assert s[i] == whole[j];
      } else if |whole| <= j < |whole| + |fraction| {
        assert s[i] == fraction[j - |whole|];
      } else if j >= 0 {
        assert s[i] == exponent[j - |whole| - |fraction|];
      }
    }
    assert s[0] == if sign == "" then whole[0] else '-';
  }

  predicate Decimal(s: string) {
    forall i :: 0 <= i < |s| ==> '0' <= s[i] <= '9'
  }

  // ---------------------------------------------------------------------------
  // Unique reading: what follows a printed value can only start with a separator
  // ---------------------------------------------------------------------------

  predicate Delimited(rest: string) {
    rest == "" || rest[0] == ',' || rest[0] == ']' || rest[0] == '}'
  }

  lemma HexDigitUnique(m: nat, n: nat)
    requires m < 16 && n < 16 && HexDigit(m) == HexDigit(n)
    ensures m == n
  {
  }

  lemma EscapeCharUnique(c: char, d: char, x: string, y: string)
    requires EscapeChar(c) + x == EscapeChar(d) + y
    ensures c == d && x == y
  {
    var t, l, r := EscapeChar(c) + x, EscapeChar(c), EscapeChar(d);
    assert t[0] == l[0] && t[0] == r[0];
    assert |l| > 1 ==> t[1] == l[1];
    assert |r| > 1 ==> t[1] == r[1];
    assert |l| > 2 ==> t[4] == l[4] && t[5] == l[5];
    assert |r| > 2 ==> t[4] == r[4] && t[5] == r[5];
    assert |l| == |r|;
    if |l| > 2 {
      assert c as int < 16 <==> d as int < 16;
      HexDigitUnique(if c as int < 16 then c as int else c as int - 16,
                     if d as int < 16 then d as int else d as int - 16);
    }
    assert x == t[|l|..] && y == t[|r|..];
  }

  lemma EscapeSplits(s: string, x: string)
    requires s != ""
    ensures Escape(s) + x == EscapeChar(s[0]) + (Escape(s[1..]) + x)
    ensures (Escape(s) + x)[0] != '\"'
  {
    var first, rest := EscapeChar(s[0]), Escape(s[1..]);
    assert Escape(s) == first + rest;
    hide Escape;
    Regroup(first, rest, x);
    assert (first + (rest + x))[0] == first[0];
  }

  lemma Regroup(a: string, b: string, c: string)
    ensures (a + b) + c == a + (b + c)
  {
  }

  lemma {:induction false} EscapeUnique(s: string, t: string, x: string, y: string)
    requires Escape(s) + ("\"" + x) == Escape(t) + ("\"" + y)
    ensures s == t && x == y
  {
    var qx, qy := "\"" + x, "\"" + y;
    assert "" + qx == qx && "" + qy == qy;
    if s != "" {
      EscapeSplits(s, qx);
    }
    if t != "" {
      EscapeSplits(t, qy);
    }
    assert s == "" <==> t == "";
    if s == "" {
      assert x == qx[1..] && y == qy[1..];
    } else {
      EscapeCharUnique(s[0], t[0], Escape(s[1..]) + qx, Escape(t[1..]) + qy);
      EscapeUnique(s[1..], t[1..], x, y);
      assert s == [s[0]] + s[1..] && t == [t[0]] + t[1..];
    }
  }

  lemma QuoteUnique(s: string, t: string, x: string, y: string)
    requires Quote(s) + x == Quote(t) + y
    ensures s == t && x == y
  {
    hide Escape;
    assert (Quote(s) + x)[1..] == Escape(s) + ("\"" + x);
    assert (Quote(t) + y)[1..] == Escape(t) + ("\"" + y);
    EscapeUnique(s, t, x, y);
  }

  lemma NumberEndsFirst(s: string, t: string, x: string, y: string)
    requires NumberToken(s) && NumberToken(t) && Delimited(x) && s + x == t + y
    ensures |t| <= |s|
  {
    assert forall i :: 0 <= i < |t| ==> (t + y)[i] == t[i];
    assert x != "" ==> (s + x)[|s|] == x[0];
  }

  lemma NumberUnique(s: string, t: string, x: string, y: string)
    requires NumberToken(s) && NumberToken(t) && Delimited(x) && Delimited(y)
    requires s + x == t + y
    ensures s == t && x == y
  {
    NumberEndsFirst(s, t, x, y);
    NumberEndsFirst(t, s, y, x);
    assert s == (s + x)[..|s|] && t == (t + y)[..|t|];
    assert x == (s + x)[|s|..] && y == (t + y)[|t|..];
  }

  /** The first character tells the kind of a value apart. */
  function Lead(v: Json): char
    requires Valid(v)
  {
    match v
    case Null => 'n'
    case Bool(b) => if b then 't' else 'f'
    case Num(text) => text[0]
    case Str(_) => '\"'
    case Arr(_) => '['
    case Obj(_) => '{'
  }

  lemma PrintLeads(v: Json)
    requires Valid(v)
    ensures |Print(v)| > 0 && Print(v)[0] == Lead(v)
    ensures Lead(v) != ']' && Lead(v) != '}' && Lead(v) != ','
  {
  }

  /** A comma-separated list, split at its first element. */
  function AfterFirst(parts: seq<string>, close: string): string
    requires parts != []
  {
    if |parts| == 1 then close else "," + (Join(parts[1..]) + close)
  }

  lemma JoinSplits(parts: seq<string>, close: string)
    requires parts != []
    ensures Join(parts) + close == parts[0] + AfterFirst(parts, close)
  {
  }

  lemma ItemsLead(s: seq<Json>, x: string)
    requires forall i :: 0 <= i < |s| ==> Valid(s[i])
    ensures (Join(PrintItems(s)) + ("]" + x))[0] == ']' <==> s == []
  {
    if s != [] {
      PrintLeads(s[0]);
      JoinSplits(PrintItems(s), "]" + x);
    }
  }

  lemma MembersLead(s: seq<Member>, x: string)
    ensures (Join(PrintMembers(s)) + ("}" + x))[0] == '}' <==> s == []
  {
    if s != [] {
      JoinSplits(PrintMembers(s), "}" + x);
      assert PrintMembers(s)[0][0] == '\"';
    }
  }

  /** Equal texts followed by separators come from the same value and the same remainder. */
  lemma {:induction false} PrintUnique(a: Json, b: Json, x: string, y: string)
    requires Valid(a) && Valid(b) && Delimited(x) && Delimited(y)
    requires Print(a) + x == Print(b) + y
    ensures a == b && x == y
    decreases a, 1
  {
    PrintLeads(a);
    PrintLeads(b);
    var t := Print(a) + x;
    assert Lead(a) == t[0] == Lead(b);
    match a {
      case Null => assert x == t[4..] && y == t[4..];
      case Bool(v) =>
        var n := if v then 4 else 5;
        assert x == t[n..] && y == t[n..];
      case Num(_) => NumberUnique(a.text, b.text, x, y);
      case Str(_) => QuoteUnique(a.s, b.s, x, y);
      case Arr(items) => ArrUnique(items, b.items, x, y);
      case Obj(members) => ObjUnique(members, b.members, x, y);
    }
  }

  lemma {:induction false} ArrUnique(s: seq<Json>, t: seq<Json>, x: string, y: string)
    requires forall i :: 0 <= i < |s| ==> Valid(s[i])
    requires forall i :: 0 <= i < |t| ==> Valid(t[i])
    requires Print(Arr(s)) + x == Print(Arr(t)) + y
    ensures s == t && x == y
    decreases s, 1
  {
    assert (Print(Arr(s)) + x)[1..] == Join(PrintItems(s)) + ("]" + x);
    assert (Print(Arr(t)) + y)[1..] == Join(PrintItems(t)) + ("]" + y);
    ItemsUnique(s, t, x, y);
  }

  lemma {:induction false} ObjUnique(s: seq<Member>, t: seq<Member>, x: string, y: string)
    requires forall i :: 0 <= i < |s| ==> Valid(s[i].value)
    requires forall i :: 0 <= i < |t| ==> Valid(t[i].value)
    requires Print(Obj(s)) + x == Print(Obj(t)) + y
    ensures s == t && x == y
    decreases s, 1
  {
    var js, jt := Join(PrintMembers(s)), Join(PrintMembers(t));
    assert Print(Obj(s)) == "{" + js + "}" && Print(Obj(t)) == "{" + jt + "}";
    InBraces(js, x);
    InBraces(jt, y);
    hide Join, PrintMembers, Print;
    MembersUnique(s, t, x, y);
  }

  lemma InBraces(j: string, x: string)
    ensures ("{" + j + "}" + x)[1..] == j + ("}" + x)
  {
  }

  lemma AfterFirstUnique(s: seq<string>, t: seq<string>, close: char, x: string, y: string)
    requires s != [] && t != [] && close != ','
    requires AfterFirst(s, [close] + x) == AfterFirst(t, [close] + y)
    ensures |s| == 1 <==> |t| == 1
    ensures |s| == 1 ==> x == y
    ensures |s| > 1 && |t| > 1 ==> Join(s[1..]) + ([close] + x) == Join(t[1..]) + ([close] + y)
  {
    var l, r := AfterFirst(s, [close] + x), AfterFirst(t, [close] + y);
    assert |s| == 1 ==> l[0] == close && l[1..] == x;
    assert |s| > 1 ==> l[0] == ',' && l[1..] == Join(s[1..]) + ([close] + x);
    assert |t| == 1 ==> r[0] == close && r[1..] == y;
    assert |t| > 1 ==> r[0] == ',' && r[1..] == Join(t[1..]) + ([close] + y);
  }

  lemma {:induction false} ItemsUnique(s: seq<Json>, t: seq<Json>, x: string, y: string)
    requires forall i :: 0 <= i < |s| ==> Valid(s[i])
    requires forall i :: 0 <= i < |t| ==> Valid(t[i])
    requires Join(PrintItems(s)) + ("]" + x) == Join(PrintItems(t)) + ("]" + y)
    ensures s == t && x == y
    decreases s, 0
  {
    ItemsLead(s, x);
    ItemsLead(t, y);
    if s == [] {
      assert x == ("" + ("]" + x))[1..] && y == ("" + ("]" + y))[1..];
    } else {
      var ps, pt := PrintItems(s), PrintItems(t);
      JoinSplits(ps, "]" + x);
      JoinSplits(pt, "]" + y);
      PrintUnique(s[0], t[0], AfterFirst(ps, "]" + x), AfterFirst(pt, "]" + y));
      AfterFirstUnique(ps, pt, ']', x, y);
      assert ps[1..] == PrintItems(s[1..]) && pt[1..] == PrintItems(t[1..]);
      if |s| > 1 {
        ItemsUnique(s[1..], t[1..], x, y);
      }
      assert s == [s[0]] + s[1..] && t == [t[0]] + t[1..];
    }
  }

  function PrintMember(m: Member): string {
    Quote(m.key) + ":" + Print(m.value)
  }

  lemma {:induction false} MemberUnique(m: Member, n: Member, x: string, y: string)
    requires Valid(m.value) && Valid(n.value) && Delimited(x) && Delimited(y)
    requires PrintMember(m) + x == PrintMember(n) + y
    ensures m == n && x == y
    decreases m, 0
  {
    var px, py := Print(m.value) + x, Print(n.value) + y;
    MemberSplits(Quote(m.key), Print(m.value), x);
    MemberSplits(Quote(n.key), Print(n.value), y);
    QuoteUnique(m.key, n.key, [':'] + px, [':'] + py);
    TailUnique(':', px, py);
    PrintUnique(m.value, n.value, x, y);
  }

  lemma MemberSplits(key: string, value: string, x: string)
    ensures key + ":" + value + x == key + ([':'] + (value + x))
  {
  }

  lemma TailUnique(c: char, x: string, y: string)
    requires [c] + x == [c] + y
    ensures x == y
  {
    assert x == ([c] + x)[1..] && y == ([c] + y)[1..];
  }

  lemma {:induction false} MembersUnique(s: seq<Member>, t: seq<Member>, x: string, y: string)
    requires forall i :: 0 <= i < |s| ==> Valid(s[i].value)
    requires forall i :: 0 <= i < |t| ==> Valid(t[i].value)
    requires Join(PrintMembers(s)) + ("}" + x) == Join(PrintMembers(t)) + ("}" + y)
    ensures s == t && x == y
    decreases s, 0
  {
    MembersLead(s, x);
    MembersLead(t, y);
    if s == [] {
      assert x == ("" + ("}" + x))[1..] && y == ("" + ("}" + y))[1..];
    } else {
      var ps, pt := PrintMembers(s), PrintMembers(t);
      var xs, ys := AfterFirst(ps, "}" + x), AfterFirst(pt, "}" + y);
      JoinSplits(ps, "}" + x);
      JoinSplits(pt, "}" + y);
      MemberUnique(s[0], t[0], xs, ys);
      AfterFirstUnique(ps, pt, '}', x, y);
      assert ps[1..] == PrintMembers(s[1..]) && pt[1..] == PrintMembers(t[1..]);
      if |s| > 1 {
        MembersUnique(s[1..], t[1..], x, y);
      }
      assert s == [s[0]] + s[1..] && t == [t[0]] + t[1..];
    }
  }

  lemma PrintInjective(a: Json, b: Json)
    requires Valid(a) && Valid(b) && Print(a) == Print(b)
    ensures a == b
  {
    assert Print(a) + "" == Print(a) && Print(b) + "" == Print(b);
    PrintUnique(a, b, "", "");
  }

  // ---------------------------------------------------------------------------
  // Canonical form: members sorted by key, at every level
  // ---------------------------------------------------------------------------

  /** The comparator, as "the first key does not come after the second". */
  type KeyOrder = (string, string) -> bool

  ghost predicate IsPreorder(leq: KeyOrder) {
    && (forall a, b :: leq(a, b) || leq(b, a))
    && (forall a, b, c :: leq(a, b) && leq(b, c) ==> leq(a, c))
  }

  ghost predicate NoTies(leq: KeyOrder) {
    forall a, b :: leq(a, b) && leq(b, a) ==> a == b
  }

  /** The runtime's sort is stable: equal keys keep their order. */
  function Insert(leq: KeyOrder, m: Member, ms: seq<Member>): (r: seq<Member>)
    ensures forall x :: x in r <==> x == m || x in ms
    ensures |r| == |ms| + 1
  {
    if ms == [] then [m]
    else if leq(m.key, ms[0].key) then [m] + ms
    else [ms[0]] + Insert(leq, m, ms[1..])
  }

  function Sort(leq: KeyOrder, ms: seq<Member>): (r: seq<Member>)
    ensures forall x :: x in r <==> x in ms
    ensures |r| == |ms|
  {
    if ms == [] then []
    else
      assert forall x :: x in ms <==> x == ms[0] || x in ms[1..];
      Insert(leq, ms[0], Sort(leq, ms[1..]))
  }

  function Canon(leq: KeyOrder, v: Json): Json
    decreases v, 0
  {
    match v
    case Arr(items) => Arr(CanonItems(leq, items))
    case Obj(members) => Obj(Sort(leq, CanonMembers(leq, members)))
    case _ => v
  }

  function CanonItems(leq: KeyOrder, items: seq<Json>): (r: seq<Json>)
    ensures |r| == |items|
    ensures forall i :: 0 <= i < |items| ==> r[i] == Canon(leq, items[i])
    decreases items
  {
    if items == [] then [] else [Canon(leq, items[0])] + CanonItems(leq, items[1..])
  }

  function CanonMembers(leq: KeyOrder, members: seq<Member>): (r: seq<Member>)
    ensures |r| == |members|
    ensures forall i :: 0 <= i < |members| ==> r[i] == Member(members[i].key, Canon(leq, members[i].value))
    decreases members
  {
    if members == [] then []
    else [Member(members[0].key, Canon(leq, members[0].value))] + CanonMembers(leq, members[1..])
  }

  /** `stableStringify` and `stableJson`. */
  function CanonicalText(leq: KeyOrder, v: Json): string {
    Print(Canon(leq, v))
  }

  // ---------------------------------------------------------------------------
  // What a value means, whatever the order of its keys
  // ---------------------------------------------------------------------------

  datatype Meaning =
    | MNull
    | MBool(b: bool)
    | MNum(text: string)
    | MStr(s: string)
    | MArr(items: seq<Meaning>)
    | MObj(members: map<string, Meaning>)

  function Mean(v: Json): Meaning
    decreases v, 0
  {
    match v
    case Null => MNull
    case Bool(b) => MBool(b)
    case Num(text) => MNum(text)
    case Str(s) => MStr(s)
    case Arr(items) => MArr(MeanItems(items))
    case Obj(members) => MObj(MeanMembers(members))
  }

  function MeanItems(items: seq<Json>): (r: seq<Meaning>)
    ensures |r| == |items|
    ensures forall i :: 0 <= i < |items| ==> r[i] == Mean(items[i])
    decreases items
  {
    if items == [] then [] else [Mean(items[0])] + MeanItems(items[1..])
  }

  function MeanMembers(members: seq<Member>): map<string, Meaning>
    decreases members
  {
    if members == [] then map[]
    else MeanMembers(members[1..])[members[0].key := Mean(members[0].value)]
  }

  lemma {:induction false} MeanMembersLookup(ms: seq<Member>, k: string)
    requires DistinctKeys(ms)
    ensures k in MeanMembers(ms) <==> exists i :: 0 <= i < |ms| && ms[i].key == k
    ensures forall i :: 0 <= i < |ms| && ms[i].key == k ==>
      k in MeanMembers(ms) && MeanMembers(ms)[k] == Mean(ms[i].value)
  {
    if ms != [] {
      var rest := ms[1..];
      assert forall i :: 0 <= i < |rest| ==> rest[i] == ms[i + 1];
      assert forall i :: 0 < i < |ms| ==> ms[i] == rest[i - 1];
      MeanMembersLookup(rest, k);
    }
  }

  lemma {:induction false} InsertDistinct(leq: KeyOrder, m: Member, ms: seq<Member>)
    requires DistinctKeys(ms) && forall i :: 0 <= i < |ms| ==> ms[i].key != m.key
    ensures DistinctKeys(Insert(leq, m, ms))
    ensures MeanMembers(Insert(leq, m, ms)) == MeanMembers(ms)[m.key := Mean(m.value)]
  {
    if ms != [] && !leq(m.key, ms[0].key) {
      var rest := ms[1..];
      assert forall i :: 0 <= i < |rest| ==> rest[i] == ms[i + 1];
      InsertDistinct(leq, m, rest);
      var r := Insert(leq, m, rest);
      forall i | 0 <= i < |r| ensures r[i].key != ms[0].key {
        assert r[i] in r;
      }
      assert Insert(leq, m, ms)[1..] == r;
    } else {
      assert ([m] + ms)[1..] == ms;
    }
  }

  lemma {:induction false} SortDistinct(leq: KeyOrder, ms: seq<Member>)
    requires DistinctKeys(ms)
    ensures DistinctKeys(Sort(leq, ms)) && MeanMembers(Sort(leq, ms)) == MeanMembers(ms)
  {
    if ms != [] {
      var rest := ms[1..];
      assert forall i :: 0 <= i < |rest| ==> rest[i] == ms[i + 1];
      SortDistinct(leq, rest);
      var r := Sort(leq, rest);
      forall i | 0 <= i < |r| ensures r[i].key != ms[0].key {
        assert r[i] in r;
        assert r[i] in rest;
      }
      InsertDistinct(leq, ms[0], r);
    }
  }

  lemma {:induction false} CanonMembersMeans(leq: KeyOrder, ms: seq<Member>)
    requires forall i :: 0 <= i < |ms| ==> Valid(ms[i].value)
    ensures MeanMembers(CanonMembers(leq, ms)) == MeanMembers(ms)
    decreases ms
  {
    if ms != [] {
      CanonMeans(leq, ms[0].value);
      CanonMembersMeans(leq, ms[1..]);
      assert CanonMembers(leq, ms)[1..] == CanonMembers(leq, ms[1..]);
    }
  }

  /** Sorting keys keeps a value valid and keeps what it means. */
  lemma {:induction false} CanonMeans(leq: KeyOrder, v: Json)
    requires Valid(v)
    ensures Valid(Canon(leq, v)) && Mean(Canon(leq, v)) == Mean(v)
    decreases v
  {
    match v {
      case Arr(items) =>
        forall i | 0 <= i < |items|
          ensures Valid(Canon(leq, items[i])) && Mean(Canon(leq, items[i])) == Mean(items[i])
        {
          CanonMeans(leq, items[i]);
        }
        assert MeanItems(CanonItems(leq, items)) == MeanItems(items);
      case Obj(ms) =>
        var cs := CanonMembers(leq, ms);
        forall i | 0 <= i < |ms| ensures Valid(cs[i].value) {
          CanonMeans(leq, ms[i].value);
        }
        CanonMembersMeans(leq, ms);
        SortDistinct(leq, cs);
        forall i | 0 <= i < |cs| ensures Valid(Sort(leq, cs)[i].value) {
          assert Sort(leq, cs)[i] in cs;
        }
      case _ =>
    }
  }

  // ---------------------------------------------------------------------------
  // Sorted lists without ties are unique
  // ---------------------------------------------------------------------------

  ghost predicate Sorted(leq: KeyOrder, ms: seq<Member>) {
    forall i, j :: 0 <= i < j < |ms| ==> leq(ms[i].key, ms[j].key)
  }

  lemma {:induction false} InsertSorted(leq: KeyOrder, m: Member, ms: seq<Member>)
    requires IsPreorder(leq) && Sorted(leq, ms)
    ensures Sorted(leq, Insert(leq, m, ms))
  {
    if ms != [] && !leq(m.key, ms[0].key) {
      InsertSorted(leq, m, ms[1..]);
      var r := Insert(leq, m, ms[1..]);
      forall j | 0 <= j < |r| ensures leq(ms[0].key, r[j].key) {
        assert r[j] in r;
      }
    }
  }

  lemma {:induction false} SortSorts(leq: KeyOrder, ms: seq<Member>)
    requires IsPreorder(leq)
    ensures Sorted(leq, Sort(leq, ms))
  {
    if ms != [] {
      SortSorts(leq, ms[1..]);
      InsertSorted(leq, ms[0], Sort(leq, ms[1..]));
    }
  }

  lemma {:induction false} SortedUnique(leq: KeyOrder, s: seq<Member>, t: seq<Member>)
    requires NoTies(leq) && Sorted(leq, s) && Sorted(leq, t) && DistinctKeys(s) && DistinctKeys(t)
    requires forall x :: x in s <==> x in t
    ensures s == t
  {
    assert s != [] ==> s[0] in s && s[0] in t;
    assert t != [] ==> t[0] in t && t[0] in s;
    if s != [] {
      assert leq(s[0].key, t[0].key) || s[0] == t[0];
      assert leq(t[0].key, s[0].key) || s[0] == t[0];
      forall x ensures x in s[1..] <==> x in t[1..] {
        TailMembers(s, x);
        TailMembers(t, x);
      }
      SortedUnique(leq, s[1..], t[1..]);
      assert s == [s[0]] + s[1..] && t == [t[0]] + t[1..];
    }
  }

  lemma TailMembers(s: seq<Member>, x: Member)
    requires s != [] && DistinctKeys(s)
    ensures x in s[1..] <==> x in s && x != s[0]
  {
    assert forall i :: 0 < i < |s| ==> s[i] == s[1..][i - 1];
  }

  // ---------------------------------------------------------------------------
  // Main results
  // ---------------------------------------------------------------------------

  /** Whatever the comparator, two values with one canonical text are equal up to the order of keys. */
  lemma EqualTextsMeanEqual(leq: KeyOrder, a: Json, b: Json)
    requires Valid(a) && Valid(b) && CanonicalText(leq, a) == CanonicalText(leq, b)
    ensures Mean(a) == Mean(b)
  {
    CanonMeans(leq, a);
    CanonMeans(leq, b);
    PrintInjective(Canon(leq, a), Canon(leq, b));
  }

  /** With a comparator that never ties distinct keys, values equal up to the order of keys have one canonical form. */
  lemma {:induction false} EqualMeaningsOneForm(leq: KeyOrder, a: Json, b: Json)
    requires IsPreorder(leq) && NoTies(leq) && Valid(a) && Valid(b) && Mean(a) == Mean(b)
    ensures Canon(leq, a) == Canon(leq, b)
    decreases a
  {
    match a {
      case Arr(items) =>
        assert |items| == |MeanItems(items)| == |b.items|;
        forall i | 0 <= i < |items| ensures Canon(leq, items[i]) == Canon(leq, b.items[i]) {
          assert Mean(items[i]) == MeanItems(items)[i] == Mean(b.items[i]);
          EqualMeaningsOneForm(leq, items[i], b.items[i]);
        }
        assert CanonItems(leq, items) == CanonItems(leq, b.items);
      case Obj(ms) =>
        MembersOneForm(leq, ms, b.members);
        var cs, ct := CanonMembers(leq, ms), CanonMembers(leq, b.members);
        forall x ensures x in cs <==> x in ct {}
        SortSorts(leq, cs);
        SortSorts(leq, ct);
        SortDistinct(leq, cs);
        SortDistinct(leq, ct);
        SortedUnique(leq, Sort(leq, cs), Sort(leq, ct));
      case _ =>
    }
  }

  /** With distinct keys, a canonical member is the one of its key. */
  lemma OnlyWithKey(leq: KeyOrder, s: seq<Member>, i: nat, x: Member)
    requires DistinctKeys(s) && i < |s| && s[i].key == x.key
    ensures x in CanonMembers(leq, s) <==> x == CanonMembers(leq, s)[i]
  {
    hide Canon;
    var cs := CanonMembers(leq, s);
    forall k | 0 <= k < |cs| && k != i ensures cs[k] != x {
      assert s[k].key != s[i].key;
    }
  }

  lemma {:induction false} MembersOneForm(leq: KeyOrder, s: seq<Member>, t: seq<Member>)
    requires IsPreorder(leq) && NoTies(leq)
    requires Valid(Obj(s)) && Valid(Obj(t)) && MeanMembers(s) == MeanMembers(t)
    ensures forall x :: x in CanonMembers(leq, s) <==> x in CanonMembers(leq, t)
    decreases s
  {
    hide Canon, Mean;
    var cs, ct := CanonMembers(leq, s), CanonMembers(leq, t);
    forall x ensures x in cs <==> x in ct {
      MeanMembersLookup(s, x.key);
      MeanMembersLookup(t, x.key);
      if i, j :| 0 <= i < |s| && 0 <= j < |t| && s[i].key == x.key && t[j].key == x.key {
        EqualMeaningsOneForm(leq, s[i].value, t[j].value);
        assert cs[i] == ct[j];
        OnlyWithKey(leq, s, i, x);
        OnlyWithKey(leq, t, j, x);
      }
    }
  }

  /** Both directions, for a comparator without ties. */
  lemma TextsDecideMeaning(leq: KeyOrder, a: Json, b: Json)
    requires IsPreorder(leq) && NoTies(leq) && Valid(a) && Valid(b)
    ensures CanonicalText(leq, a) == CanonicalText(leq, b) <==> Mean(a) == Mean(b)
  {
    if CanonicalText(leq, a) == CanonicalText(leq, b) {
      EqualTextsMeanEqual(leq, a, b);
    }
    if Mean(a) == Mean(b) {
      EqualMeaningsOneForm(leq, a, b);
    }
  }

  ghost predicate Canonical(leq: KeyOrder) {
    forall a, b :: Valid(a) && Valid(b) && Mean(a) == Mean(b) ==> CanonicalText(leq, a) == CanonicalText(leq, b)
  }

  /** A tie between distinct keys, which locale collation has, leaves them in insertion order. */
  lemma TiesBreakCanonicity(leq: KeyOrder, j: string, k: string)
    requires j != k && leq(j, k) && leq(k, j)
    ensures exists a, b :: Valid(a) && Valid(b) && Mean(a) == Mean(b) && CanonicalText(leq, a) != CanonicalText(leq, b)
  {
    var m, n := Member(j, Null), Member(k, Null);
    var a, b := Obj([m, n]), Obj([n, m]);
    MeanPair(m, n);
    MeanPair(n, m);
    var ms, ns := [m, n], [n, m];
    assert MeanMembers(ms) == MeanMembers(ns);
    assert Mean(Obj(ms)) == MObj(MeanMembers(ms)) && Mean(Obj(ns)) == MObj(MeanMembers(ns));
    assert Mean(a) == Mean(b);
    KeepsTied(leq, m, n);
    KeepsTied(leq, n, m);
    if CanonicalText(leq, a) == CanonicalText(leq, b) {
      PrintInjective(a, b);
    }
    assert Valid(a) && Valid(b) && Mean(a) == Mean(b) && CanonicalText(leq, a) != CanonicalText(leq, b);
  }

  lemma MeanPair(m: Member, n: Member)
    ensures MeanMembers([m, n]) == map[n.key := Mean(n.value)][m.key := Mean(m.value)]
  {
    assert [m, n][1..] == [n] && [n][1..] == [];
    assert MeanMembers([n]) == MeanMembers([n][1..])[n.key := Mean(n.value)];
    assert MeanMembers([m, n]) == MeanMembers([m, n][1..])[m.key := Mean(m.value)];
  }

  lemma KeepsTied(leq: KeyOrder, m: Member, n: Member)
    requires leq(m.key, n.key) && m.value.Null? && n.value.Null?
    ensures Canon(leq, Obj([m, n])) == Obj([m, n])
  {
    assert [m, n][1..] == [n] && [n][1..] == [];
    assert CanonMembers(leq, [m, n]) == [m, n];
    assert Sort(leq, [n]) == [n];
  }

  /** The printer is canonical exactly when its comparator never ties two distinct keys. */
  lemma CanonicalExactlyWithoutTies(leq: KeyOrder)
    requires IsPreorder(leq)
    ensures Canonical(leq) <==> NoTies(leq)
  {
    if NoTies(leq) {
      forall a, b | Valid(a) && Valid(b) && Mean(a) == Mean(b) ensures CanonicalText(leq, a) == CanonicalText(leq, b) {
        EqualMeaningsOneForm(leq, a, b);
      }
    } else {
      var j, k :| leq(j, k) && leq(k, j) && j != k;
      TiesBreakCanonicity(leq, j, k);
    }
  }

  /** The UTF-16 code units of a character: one, or a surrogate pair beyond the basic plane. */
  function CharUnits(c: char): (u: seq<nat>)
    ensures u != []
  {
    var n := c as int;
    if n < 0x1_0000 then [n] else [0xD800 + (n - 0x1_0000) / 0x400, 0xDC00 + (n - 0x1_0000) % 0x400]
  }

  /** The units are those of UTF-16: a unit outside the surrogates for itself, or a high and a low surrogate. */
  lemma UnitsEncode(c: char)
    ensures var u, n := CharUnits(c), c as int;
      if n < 0x10000 then u == [n]
      else
        && |u| == 2 && 0xD800 <= u[0] < 0xDC00 && 0xDC00 <= u[1] < 0xE000
        && (u[0] - 0xD800) * 0x400 + (u[1] - 0xDC00) + 0x10000 == n
  {
  }

  function CodeUnits(s: string): seq<nat> {
    if s == "" then [] else CharUnits(s[0]) + CodeUnits(s[1..])
  }

  lemma CharUnitsUnique(c: char, d: char, x: seq<nat>, y: seq<nat>)
    requires CharUnits(c) + x == CharUnits(d) + y
    ensures c == d && x == y
  {
    var u, v := CharUnits(c) + x, CharUnits(d) + y;
    assert u[0] == CharUnits(c)[0] && v[0] == CharUnits(d)[0];
    assert |CharUnits(c)| == 2 ==> u[1] == CharUnits(c)[1];
    assert |CharUnits(d)| == 2 ==> v[1] == CharUnits(d)[1];
    assert x == u[|CharUnits(c)|..] && y == v[|CharUnits(d)|..];
  }

  lemma {:induction false} CodeUnitsUnique(s: string, t: string)
    requires CodeUnits(s) == CodeUnits(t)
    ensures s == t
    decreases |s|
  {
    if s != "" && t != "" {
      CharUnitsUnique(s[0], t[0], CodeUnits(s[1..]), CodeUnits(t[1..]));
      CodeUnitsUnique(s[1..], t[1..]);
      assert s == [s[0]] + s[1..] && t == [t[0]] + t[1..];
    }
  }

  /** First difference decides; a prefix comes first. */
  predicate UnitOrder(a: seq<nat>, b: seq<nat>) {
    a == [] || (b != [] && (a[0] < b[0] || (a[0] == b[0] && UnitOrder(a[1..], b[1..]))))
  }

  /** The order of the idempotency store: by code units. */
  predicate CodeOrder(a: string, b: string) {
    UnitOrder(CodeUnits(a), CodeUnits(b))
  }

  lemma {:induction false} UnitOrderTotal(a: seq<nat>, b: seq<nat>)
    ensures UnitOrder(a, b) || UnitOrder(b, a)
    ensures UnitOrder(a, b) && UnitOrder(b, a) ==> a == b
  {
    if a != [] && b != [] && a[0] == b[0] {
      UnitOrderTotal(a[1..], b[1..]);
      assert a == [a[0]] + a[1..] && b == [b[0]] + b[1..];
    }
  }

  lemma {:induction false} UnitOrderTransitive(a: seq<nat>, b: seq<nat>, c: seq<nat>)
    requires UnitOrder(a, b) && UnitOrder(b, c)
    ensures UnitOrder(a, c)
  {
    if a != [] && a[0] == b[0] && b[0] == c[0] {
      UnitOrderTransitive(a[1..], b[1..], c[1..]);
    }
  }

  /** The idempotency store's digests and scoped keys identify values exactly. */
  lemma CodeOrderIsCanonical()
    ensures IsPreorder(CodeOrder) && NoTies(CodeOrder) && Canonical(CodeOrder)
  {
    forall a, b ensures CodeOrder(a, b) || CodeOrder(b, a) ensures CodeOrder(a, b) && CodeOrder(b, a) ==> a == b {
      UnitOrderTotal(CodeUnits(a), CodeUnits(b));
      if CodeOrder(a, b) && CodeOrder(b, a) {
        CodeUnitsUnique(a, b);
      }
    }
    forall a, b, c | CodeOrder(a, b) && CodeOrder(b, c) ensures CodeOrder(a, c) {
      UnitOrderTransitive(CodeUnits(a), CodeUnits(b), CodeUnits(c));
    }
    CanonicalExactlyWithoutTies(CodeOrder);
  }

  // ---------------------------------------------------------------------------
  // Scoped keys and decision tokens
  // ---------------------------------------------------------------------------

  function ScopeObject(key: string, principal: string, action: string, resource: string): Json {
    Obj([Member("key", Str(key)), Member("principal", Str(principal)), Member("action", Str(action)),
         Member("resource", Str(resource))])
  }

  /** Scoped keys coincide only when key, principal, action and resource all do. */
  lemma ScopedKeysCoincideOnlyWhenEqual(leq: KeyOrder, k: string, p: string, a: string, r: string,
                                        k': string, p': string, a': string, r': string)
    ensures CanonicalText(leq, ScopeObject(k, p, a, r)) == CanonicalText(leq, ScopeObject(k', p', a', r'))
       <==> k == k' && p == p' && a == a' && r == r'
  {
    if CanonicalText(leq, ScopeObject(k, p, a, r)) == CanonicalText(leq, ScopeObject(k', p', a', r')) {
      MeanScope(k, p, a, r);
      MeanScope(k', p', a', r');
      EqualTextsMeanEqual(leq, ScopeObject(k, p, a, r), ScopeObject(k', p', a', r'));
    }
  }

  lemma MeanScope(k: string, p: string, a: string, r: string)
    ensures Valid(ScopeObject(k, p, a, r))
    ensures var m := MeanMembers(ScopeObject(k, p, a, r).members);
      && "key" in m && m["key"] == MStr(k)
      && "principal" in m && m["principal"] == MStr(p)
      && "action" in m && m["action"] == MStr(a)
      && "resource" in m && m["resource"] == MStr(r)
  {
    var ms := ScopeObject(k, p, a, r).members;
    assert ms[0].key == "key" && ms[1].key == "principal" && ms[2].key == "action" && ms[3].key == "resource";
    assert "key" != "principal" && "key" != "action" && "key" != "resource" && "principal" != "action"
        && "principal" != "resource" && "action" != "resource" by {
      assert |"key"| == 3 && |"principal"| == 9 && |"action"| == 6 && |"resource"| == 8;
    }
    MeanMembersLookup(ms, "key");
    MeanMembersLookup(ms, "principal");
    MeanMembersLookup(ms, "action");
    MeanMembersLookup(ms, "resource");
  }

  /** The signed text of a decision; a dry run adds one more member. */
  function TokenObject(intent: Json, outcome: string, correlationId: string, decidedAt: string, approvalId: Json,
                       dryRun: bool)
    : Json
  {
    Obj([Member("intent", intent), Member("outcome", Str(outcome)), Member("correlationId", Str(correlationId)),
         Member("decidedAt", Str(decidedAt)), Member("approvalId", approvalId)]
        + if dryRun then [Member("dryRun", Bool(true))] else [])
  }

  /** One token text carries one decision: a dry-run token never passes for an execution token, and the approval
      id, outcome, time, correlation id and meaning of the intent cannot change under it. */
  lemma TokenTextsBindDecisions(leq: KeyOrder, i: Json, o: string, c: string, d: string, a: Json, dry: bool,
                                i': Json, o': string, c': string, d': string, a': Json, dry': bool)
    requires Valid(i) && Valid(i') && Valid(a) && Valid(a')
    requires CanonicalText(leq, TokenObject(i, o, c, d, a, dry))
      == CanonicalText(leq, TokenObject(i', o', c', d', a', dry'))
    ensures dry == dry' && Mean(i) == Mean(i') && o == o' && c == c' && d == d' && Mean(a) == Mean(a')
  {
    hide CanonicalText, MeanMembers, Valid;
    MeanToken(i, o, c, d, a, dry);
    MeanToken(i', o', c', d', a', dry');
    EqualTextsMeanEqual(leq, TokenObject(i, o, c, d, a, dry), TokenObject(i', o', c', d', a', dry'));
  }

  lemma MeanToken(i: Json, o: string, c: string, d: string, a: Json, dry: bool)
    requires Valid(i) && Valid(a)
    ensures var m := MeanMembers(TokenObject(i, o, c, d, a, dry).members);
      && "intent" in m && m["intent"] == Mean(i)
      && "outcome" in m && m["outcome"] == MStr(o)
      && "correlationId" in m && m["correlationId"] == MStr(c)
      && "decidedAt" in m && m["decidedAt"] == MStr(d)
      && "approvalId" in m && m["approvalId"] == Mean(a)
      && ("dryRun" in m <==> dry)
    ensures Valid(TokenObject(i, o, c, d, a, dry))
  {
    hide Valid;
    var ms := TokenObject(i, o, c, d, a, dry).members;
    TokenKeys(i, o, c, d, a, dry);
    MeanMembersLookup(ms, "intent");
    MeanMembersLookup(ms, "outcome");
    MeanMembersLookup(ms, "correlationId");
    MeanMembersLookup(ms, "decidedAt");
    MeanMembersLookup(ms, "approvalId");
    MeanMembersLookup(ms, "dryRun");
  }

  lemma TokenKeys(i: Json, o: string, c: string, d: string, a: Json, dry: bool)
    requires Valid(i) && Valid(a)
    ensures var ms := TokenObject(i, o, c, d, a, dry).members;
      && |ms| == (if dry then 6 else 5) && DistinctKeys(ms)
      && ms[0] == Member("intent", i) && ms[1] == Member("outcome", Str(o)) && ms[2] == Member("correlationId", Str(c))
      && ms[3] == Member("decidedAt", Str(d)) && ms[4] == Member("approvalId", a)
      && (dry ==> ms[5] == Member("dryRun", Bool(true)))
    ensures Valid(TokenObject(i, o, c, d, a, dry))
  {
    var ms := TokenObject(i, o, c, d, a, dry).members;
    assert ms[0].key == "intent" && ms[1].key == "outcome" && ms[2].key == "correlationId"
        && ms[3].key == "decidedAt" && ms[4].key == "approvalId";
    assert dry ==> |ms| == 6 && ms[5].key == "dryRun";
    assert DistinctKeys(ms);
  }
}
