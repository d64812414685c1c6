/**
 JSON values, the compact printer that the gateway uses (`json.dumps` with
 `ensure_ascii=False` and `(",", ":")`) and a decoder for RFC 8259 texts.

 A number is kept as its lexeme, so equal values here are equal JSON values.
 An object is the ordered list of its members, as a Python dict iterates.
 */
module Json {
  import opened Outcomes

  datatype Value =
    | Null
    | Bool(flag: bool)
    | Number(lexeme: string)
    | Text(chars: string)
    | List(items: seq<Value>)
    | Object(members: seq<Member>)

  datatype Member = Member(key: string, value: Value)

  /** The value stored under `key`, if any. */
  function Get(members: seq<Member>, key: string): (r: Option<Value>)
    ensures r.Some? <==> exists i :: 0 <= i < |members| && members[i].key == key
    ensures r.Some? ==> exists i :: 0 <= i < |members| && members[i] == Member(key, r.value)
  {
    if |members| == 0 then None
    else if members[0].key == key then Some(members[0].value)
    else
      var r := Get(members[1..], key);
      assert r.Some? ==> exists i :: 0 <= i < |members[1..]| && members[1..][i] == Member(key, r.value);
      assert forall i :: 0 <= i < |members| - 1 ==> members[1..][i] == members[i + 1];
      assert forall i :: 1 <= i < |members| ==> members[i] == members[1..][i - 1];
      r
  }

  predicate Has(members: seq<Member>, key: string) {
    Get(members, key).Some?
  }

  /** The value stored under `key`, or null. */
  function At(members: seq<Member>, key: string): (v: Value)
    ensures Has(members, key) ==> Get(members, key) == Some(v)
  {
    match Get(members, key) case Some(v) => v case None => Null
  }

  // ---------------------------------------------------------------------
  // Printing
  // ---------------------------------------------------------------------

  function HexDigit(n: nat): char
    requires n < 16
  {
    if n < 10 then '0' + n as char else 'a' + (n - 10) as char
  }

  /** One character inside a printed string. */
  function PrintChar(c: char): string {
    if c == '\"' then "\\\""
    else if c == '\\' then "\\\\"
    else if c == '\n' then "\\n"
    else if c == '\r' then "\\r"
    else if c == '\t' then "\\t"
    else if c == 8 as char then "\\b"
    else if c == 12 as char then "\\f"
    else if c < ' ' then "\\u00" + [HexDigit(c as int / 16), HexDigit(c as int % 16)]
    else [c]
  }

  function PrintChars(s: string): string {
    if |s| == 0 then "" else PrintChar(s[0]) + PrintChars(s[1..])
  }

  function PrintText(s: string): string {
    "\"" + PrintChars(s) + "\""
  }

  function Print(v: Value): string
    decreases v, 0
  {
    match v
    case Null => "null"
    case Bool(b) => if b then "true" else "false"
    case Number(lexeme) => lexeme
    case Text(s) => PrintText(s)
    case List(items) => "[" + PrintItems(items) + "]"
    case Object(members) => "{" + PrintMembers(members) + "}"
  }

  function PrintItems(items: seq<Value>): string
    decreases items, 1
  {
    if |items| == 0 then ""
    else if |items| == 1 then Print(items[0])
    else Print(items[0]) + "," + PrintItems(items[1..])
  }

  function PrintMember(m: Member): string
    decreases m, 1
  {
    PrintText(m.key) + ":" + Print(m.value)
  }

  function PrintMembers(members: seq<Member>): string
    decreases members, 2
  {
    if |members| == 0 then ""
    else if |members| == 1 then PrintMember(members[0])
    else PrintMember(members[0]) + "," + PrintMembers(members[1..])
  }

  /** Some number, text or key inside `v` holds a space. */
  ghost predicate HoldsSpace(v: Value)
    decreases v
  {
    match v
    case Number(lexeme) => ' ' in lexeme
    case Text(s) => ' ' in s
    case List(items) => exists i :: 0 <= i < |items| && HoldsSpace(items[i])
    case Object(members) =>
      exists i :: 0 <= i < |members| && (' ' in members[i].key || HoldsSpace(members[i].value))
    case _ => false
  }

  lemma {:induction false} CharsAddNoSpace(s: string)
    ensures ' ' in PrintChars(s) <==> ' ' in s
  {
    if |s| > 0 {
      CharsAddNoSpace(s[1..]);
      assert s == [s[0]] + s[1..];
      assert ' ' in PrintChar(s[0]) <==> s[0] == ' ';
    }
  }

  lemma TextAddsNoSpace(s: string)
    ensures ' ' in PrintText(s) <==> ' ' in s
  {
    CharsAddNoSpace(s);
  }

  /** The printed form has no space of its own, between tokens or anywhere else. */
  lemma {:induction false} PrintIsCompact(v: Value)
    ensures ' ' in Print(v) <==> HoldsSpace(v)
    decreases v, 0
  {
    match v
    case Text(s) => TextAddsNoSpace(s);
    case List(items) =>
      ItemsAreCompact(items);
      assert Print(v) == "[" + PrintItems(items) + "]";
    case Object(members) =>
      MembersAreCompact(members);
      assert Print(v) == "{" + PrintMembers(members) + "}";
    case _ =>
  }

  lemma {:induction false} ItemsAreCompact(items: seq<Value>)
    ensures ' ' in PrintItems(items) <==> exists i :: 0 <= i < |items| && HoldsSpace(items[i])
    decreases items, 1
  {
    hide Print, HoldsSpace;
    if |items| > 0 {
      PrintIsCompact(items[0]);
      if |items| > 1 {
        ItemsAreCompact(items[1..]);
        assert forall i :: 0 < i < |items| ==> items[i] == items[1..][i - 1];
        assert forall i :: 0 <= i < |items| - 1 ==> items[1..][i] == items[i + 1];
      }
    }
  }

  lemma {:induction false} MemberIsCompact(m: Member)
    ensures ' ' in PrintMember(m) <==> ' ' in m.key || HoldsSpace(m.value)
    decreases m, 1
  {
    hide Print, PrintText, HoldsSpace;
    TextAddsNoSpace(m.key);
    PrintIsCompact(m.value);
  }

  lemma {:induction false} MembersAreCompact(members: seq<Member>)
    ensures ' ' in PrintMembers(members) <==>
            exists i :: 0 <= i < |members| && (' ' in members[i].key || HoldsSpace(members[i].value))
    decreases members, 2
  {
    hide PrintMember, HoldsSpace;
    if |members| > 0 {
      MemberIsCompact(members[0]);
      if |members| > 1 {
        MembersAreCompact(members[1..]);
        assert forall i :: 0 < i < |members| ==> members[i] == members[1..][i - 1];
        assert forall i :: 0 <= i < |members| - 1 ==> members[1..][i] == members[i + 1];
      }
    }
  }

  /** The number of bytes of `s` in UTF-8. */
  function Utf8Length(s: string): nat {
    if |s| == 0 then 0
    else
      (if s[0] as int < 0x80 then 1 else if s[0] as int < 0x800 then 2
       else if s[0] as int < 0x10000 then 3 else 4) + Utf8Length(s[1..])
  }

  function EncodedSize(v: Value): nat {
    Utf8Length(Print(v))
  }

  // ---------------------------------------------------------------------
  // Decoding
  // ---------------------------------------------------------------------

  predicate IsSpace(c: char) {
    c == ' ' || c == '\t' || c == '\n' || c == '\r'
  }

  function SkipSpace(s: string): (r: string)
    ensures |r| <= |s|
    ensures r != "" ==> !IsSpace(r[0])
  {
    if s != "" && IsSpace(s[0]) then SkipSpace(s[1..]) else s
  }

  function HexValue(c: char): Option<nat> {
    if '0' <= c <= '9' then Some(c as int - '0' as int)
    else if 'a' <= c <= 'f' then Some(c as int - 'a' as int + 10)
    else if 'A' <= c <= 'F' then Some(c as int - 'A' as int + 10)
    else None
  }

  /** The four hexadecimal digits at the head of `s`. */
  function Hex4(s: string): Option<nat> {
    if |s| < 4 then None
    else
      var a :- HexValue(s[0]);
      var b :- HexValue(s[1]);
      var c :- HexValue(s[2]);
      var d :- HexValue(s[3]);
      Some(((a * 16 + b) * 16 + c) * 16 + d)
  }

  function ShortEscape(c: char): Option<char> {
    if c == '\"' || c == '\\' || c == '/' then Some(c)
    else if c == 'b' then Some(8 as char)
    else if c == 'f' then Some(12 as char)
    else if c == 'n' then Some('\n')
    else if c == 'r' then Some('\r')
    else if c == 't' then Some('\t')
    else None
  }

  predicate IsScalar(n: int) {
    0 <= n < 0xD800 || 0xE000 <= n < 0x11_0000
  }

  /**
   The escape sequence at the head of `s`, which starts just after a backslash:
   its character and the number of characters used. A surrogate escape counts
   only as the first half of a pair.
   */
  function ParseEscape(s: string): (r: Option<(char, nat)>)
    ensures r.Some? ==> 1 <= r.value.1 <= |s|
  {
    if s == "" then None
    else if s[0] != 'u' then
      var c :- ShortEscape(s[0]);
      Some((c, 1))
    else
      var high :- Hex4(s[1..]);
      if IsScalar(high) then Some((high as char, 5))
      else if |s| >= 11 && s[5] == '\\' && s[6] == 'u' then
        var low :- Hex4(s[7..]);
        var code := 0x10000 + (high - 0xD800) * 0x400 + (low - 0xDC00);
        if high < 0xDC00 && 0xDC00 <= low < 0xE000 && IsScalar(code) then Some((code as char, 11)) else None
      else None
  }

  /** The characters of a string literal up to its closing quote, and what follows the quote. */
  function ParseChars(s: string): (r: Option<(string, string)>)
    ensures r.Some? ==> |r.value.1| < |s|
  {
    if s == "" then None
    else if s[0] == '\"' then Some(("", s[1..]))
    else if s[0] == '\\' then
      var (c, used) :- ParseEscape(s[1..]);
      var (t, rest) :- ParseChars(s[1 + used..]);
      Some(([c] + t, rest))
    else if s[0] < ' ' then None
    else
      var (t, rest) :- ParseChars(s[1..]);
      Some(([s[0]] + t, rest))
  }

  predicate IsNumberChar(c: char) {
    '0' <= c <= '9' || c == '-' || c == '+' || c == '.' || c == 'e' || c == 'E'
  }

  /** The length of the longest head of `s` made of number characters. */
  function NumberSpan(s: string): (n: nat)
    ensures n <= |s|
    ensures forall i :: 0 <= i < n ==> IsNumberChar(s[i])
    ensures n < |s| ==> !IsNumberChar(s[n])
  {
    if s == "" || !IsNumberChar(s[0]) then 0 else 1 + NumberSpan(s[1..])
  }

  predicate AllDigits(s: string) {
    forall i :: 0 <= i < |s| ==> '0' <= s[i] <= '9'
  }

  predicate IsExponent(s: string) {
    s == "" ||
    ((s[0] == 'e' || s[0] == 'E') &&
     var t := if |s| > 1 && (s[1] == '+' || s[1] == '-') then s[2..] else s[1..];
     t != "" && AllDigits(t))
  }

  predicate IsFraction(s: string) {
    IsExponent(s) ||
    (s != "" && s[0] == '.' &&
     exists n :: 1 < n <= |s| && AllDigits(s[1..n]) && IsExponent(s[n..]))
  }

  predicate IsUnsigned(s: string) {
    s != "" &&
    ((s[0] == '0' && IsFraction(s[1..])) ||
     ('1' <= s[0] <= '9' && exists n :: 1 <= n <= |s| && AllDigits(s[1..n]) && IsFraction(s[n..])))
  }

  /** The number grammar of section 6 of RFC 8259. */
  predicate IsNumber(s: string) {
    IsUnsigned(s) || (s != "" && s[0] == '-' && IsUnsigned(s[1..]))
  }

  predicate StartsWith(s: string, head: string) {
    |head| <= |s| && s[..|head|] == head
  }

  /** Reads a literal name or a number. */
  function ParseScalar(s: string): (r: Option<(Value, string)>)
    ensures r.Some? ==> |r.value.1| < |s|
  {
    if StartsWith(s, "null") then Some((Null, s[4..]))
    else if StartsWith(s, "true") then Some((Bool(true), s[4..]))
    else if StartsWith(s, "false") then Some((Bool(false), s[5..]))
    else
      var n := NumberSpan(s);
      if IsNumber(s[..n]) then Some((Number(s[..n]), s[n..])) else None
  }

  /** Assigns a key of a dict: a new one goes to the end, an old one keeps its place. */
  function Put(members: seq<Member>, m: Member): seq<Member> {
    if |members| == 0 then [m]
    else if members[0].key == m.key then [m] + members[1..]
    else [members[0]] + Put(members[1..], m)
  }

  /** The dict of the pairs of an object text: of pairs with the same key the last counts. */
  function AsDict(pairs: seq<Member>): seq<Member> {
    if |pairs| == 0 then [] else Put(AsDict(pairs[..|pairs| - 1]), pairs[|pairs| - 1])
  }

  /** Reads one value at the head of `s`. */
  function ParseValue(s: string): (r: Option<(Value, string)>)
    ensures r.Some? ==> |r.value.1| < |s|
    decreases |s|, 0
  {
    if s == "" then None
    else if s[0] == '\"' then
      var (t, rest) :- ParseChars(s[1..]);
      Some((Text(t), rest))
    else if s[0] == '[' then
      var inner := SkipSpace(s[1..]);
      if inner != "" && inner[0] == ']' then Some((List([]), inner[1..]))
      else
        var (items, rest) :- ParseItems(inner);
        Some((List(items), rest))
    else if s[0] == '{' then
      var inner := SkipSpace(s[1..]);
      if inner != "" && inner[0] == '}' then Some((Object([]), inner[1..]))
      else
        var (pairs, rest) :- ParseMembers(inner);
        Some((Object(AsDict(pairs)), rest))
    else ParseScalar(s)
  }

  /** Reads `value , value , ... ]`. */
  function ParseItems(s: string): (r: Option<(seq<Value>, string)>)
    ensures r.Some? ==> |r.value.1| < |s|
    decreases |s|, 1
  {
    var (v, afterValue) :- ParseValue(s);
    var rest := SkipSpace(afterValue);
    if rest == "" then None
    else if rest[0] == ']' then Some(([v], rest[1..]))
    else if rest[0] == ',' then
      var (more, end) :- ParseItems(SkipSpace(rest[1..]));
      Some(([v] + more, end))
    else None
  }

  /** Reads `"key" : value`. */
  function ParseMember(s: string): (r: Option<(Member, string)>)
    ensures r.Some? ==> |r.value.1| < |s|
    decreases |s|, 1
  {
    if s == "" || s[0] != '\"' then None
    else
      var (key, afterKey) :- ParseChars(s[1..]);
      var colon := SkipSpace(afterKey);
      if colon == "" || colon[0] != ':' then None
      else
        var (v, rest) :- ParseValue(SkipSpace(colon[1..]));
        Some((Member(key, v), rest))
  }

  /** Reads `member , member , ... }`. */
  function ParseMembers(s: string): (r: Option<(seq<Member>, string)>)
    ensures r.Some? ==> |r.value.1| < |s|
    decreases |s|, 2
  {
    var (m, afterMember) :- ParseMember(s);
    var rest := SkipSpace(afterMember);
    if rest == "" then None
    else if rest[0] == '}' then Some(([m], rest[1..]))
    else if rest[0] == ',' then
      var (more, end) :- ParseMembers(SkipSpace(rest[1..]));
      Some(([m] + more, end))
    else None
  }

  /** Decodes a whole text: one value with nothing but white space around it. */
  function Parse(s: string): Option<Value> {
    var (v, rest) :- ParseValue(SkipSpace(s));
    if SkipSpace(rest) == "" then Some(v) else None
  }

  // ---------------------------------------------------------------------
  // Printing and decoding are inverse
  // ---------------------------------------------------------------------

  /** No two members share a key. */
  ghost predicate IsDict(members: seq<Member>) {
    forall i, j :: 0 <= i < j < |members| ==> members[i].key != members[j].key
  }

  /** Every number in `v` is a JSON number, and every object a dict. */
  ghost predicate Printable(v: Value)
    decreases v
  {
    match v
    case Number(lexeme) => IsNumber(lexeme)
    case List(items) => forall i :: 0 <= i < |items| ==> Printable(items[i])
    case Object(members) => IsDict(members) && forall i :: 0 <= i < |members| ==> Printable(members[i].value)
    case _ => true
  }

  // ---------------------------------------------------------------------
  // Dicts
  // ---------------------------------------------------------------------

  lemma {:induction false} GetOfPut(members: seq<Member>, m: Member, key: string)
    ensures Get(Put(members, m), key) == if key == m.key then Some(m.value) else Get(members, key)
  {
    if |members| > 0 && members[0].key != m.key {
      GetOfPut(members[1..], m, key);
      assert Put(members, m)[1..] == Put(members[1..], m);
    } else if |members| > 0 {
      assert Put(members, m)[1..] == members[1..];
    }
  }

  /** The value that the last pair with this key has. */
  function LastOf(pairs: seq<Member>, key: string): Option<Value> {
    if |pairs| == 0 then None
    else if pairs[|pairs| - 1].key == key then Some(pairs[|pairs| - 1].value)
    else LastOf(pairs[..|pairs| - 1], key)
  }

  /** Looking a key up in a decoded object finds the last pair of the text with that key. */
  lemma {:induction false} DictHoldsLast(pairs: seq<Member>, key: string)
    ensures Get(AsDict(pairs), key) == LastOf(pairs, key)
  {
    if |pairs| > 0 {
      hide Get, Put;
      DictHoldsLast(pairs[..|pairs| - 1], key);
      GetOfPut(AsDict(pairs[..|pairs| - 1]), pairs[|pairs| - 1], key);
    } else {
      assert AsDict(pairs) == [];
    }
  }

  lemma {:induction false} PutIsNew(members: seq<Member>, m: Member)
    requires forall i :: 0 <= i < |members| ==> members[i].key != m.key
    ensures Put(members, m) == members + [m]
  {
    if |members| > 0 {
      PutIsNew(members[1..], m);
      assert members == [members[0]] + members[1..];
    }
  }

  lemma {:induction false} DictIsKept(pairs: seq<Member>)
    requires IsDict(pairs)
    ensures AsDict(pairs) == pairs
  {
    if |pairs| > 0 {
      var before := pairs[..|pairs| - 1];
      DictIsKept(before);
      PutIsNew(before, pairs[|pairs| - 1]);
    }
  }

  lemma {:induction false} PutKeepsDict(members: seq<Member>, m: Member)
    requires IsDict(members)
    ensures IsDict(Put(members, m))
    ensures forall x :: x in Put(members, m) ==> x == m || x in members
    ensures forall x :: x in Put(members, m) ==>
              x.key == m.key || exists i :: 0 <= i < |members| && members[i].key == x.key
  {
    if |members| > 0 {
      if members[0].key == m.key {
        assert forall x :: x in members[1..] ==> x in members;
      } else {
        var rest := Put(members[1..], m);
        PutKeepsDict(members[1..], m);
        assert forall x :: x in members[1..] ==> x in members;
        forall i | 0 <= i < |rest| ensures rest[i].key != members[0].key {
          assert rest[i] in rest;
        }
      }
    }
  }

  lemma {:induction false} DictOfPairs(pairs: seq<Member>)
    ensures IsDict(AsDict(pairs))
    ensures forall x :: x in AsDict(pairs) ==> x in pairs
  {
    if |pairs| > 0 {
      hide IsDict, Put;
      DictOfPairs(pairs[..|pairs| - 1]);
      PutKeepsDict(AsDict(pairs[..|pairs| - 1]), pairs[|pairs| - 1]);
    }
  }

  /** The six characters of a control character are read back as it. */
  lemma ControlCharDecodes(c: char, rest: string)
    requires |PrintChar(c)| == 6
    ensures PrintChar(c)[0] == '\\' && ParseEscape(PrintChar(c)[1..] + rest) == Some((c, 5))
  {
    var p := PrintChar(c);
    assert p == "\\u00" + [HexDigit(c as int / 16), HexDigit(c as int % 16)];
    var tail := p[1..] + rest;
    var digits := tail[1..];
    assert digits[0] == '0' && digits[1] == '0';
    assert digits[2] == HexDigit(c as int / 16) && digits[3] == HexDigit(c as int % 16);
    assert Hex4(digits) == Some(c as int);
  }

  lemma ShortEscapeDecodes(c: char, rest: string)
    requires |PrintChar(c)| == 2
    ensures PrintChar(c)[0] == '\\' && ParseEscape(PrintChar(c)[1..] + rest) == Some((c, 1))
  {
    hide Hex4;
  }

  lemma EscapeIsRead(s: string, c: char, used: nat)
    requires s != "" && s[0] == '\\' && ParseEscape(s[1..]) == Some((c, used)) && 1 + used <= |s|
    ensures ParseChars(s) ==
            match ParseChars(s[1 + used..]) case None => None case Some((t, end)) => Some(([c] + t, end))
  {
    hide ParseEscape;
  }

  lemma PrintedCharDecodes(c: char, rest: string)
    ensures ParseChars(PrintChar(c) + rest) ==
            match ParseChars(rest) case None => None case Some((t, end)) => Some(([c] + t, end))
  {
    var p := PrintChar(c);
    var s := p + rest;
    if |p| == 1 {
      hide ParseEscape;
      assert s[1..] == rest;
    } else {
      if |p| == 2 { ShortEscapeDecodes(c, rest); } else { ControlCharDecodes(c, rest); }
      hide ParseChars, ParseEscape;
      assert s[1..] == p[1..] + rest && s[|p|..] == rest;
      EscapeIsRead(s, c, |p| - 1);
    }
  }

  lemma {:induction false} PrintedCharsDecode(s: string, rest: string)
    ensures ParseChars(PrintChars(s) + "\"" + rest) == Some((s, rest))
  {
    if |s| == 0 {
      assert PrintChars(s) + "\"" + rest == "\"" + rest;
      assert ("\"" + rest)[1..] == rest;
    } else {
      PrintedCharsDecode(s[1..], rest);
      var tail := PrintChars(s[1..]) + "\"" + rest;
      assert PrintChars(s) + "\"" + rest == PrintChar(s[0]) + tail;
      PrintedCharDecodes(s[0], tail);
      assert s == [s[0]] + s[1..];
    }
  }

  lemma NumberSpanOf(lexeme: string, rest: string)
    requires forall i :: 0 <= i < |lexeme| ==> IsNumberChar(lexeme[i])
    requires rest != "" ==> !IsNumberChar(rest[0])
    ensures NumberSpan(lexeme + rest) == |lexeme|
  {
    var s := lexeme + rest;
    assert forall i :: 0 <= i < |lexeme| ==> s[i] == lexeme[i];
    assert rest != "" ==> s[|lexeme|] == rest[0];
  }

  lemma NumberChars(s: string)
    requires IsNumber(s)
    ensures s != "" && forall i :: 0 <= i < |s| ==> IsNumberChar(s[i])
  {
    if IsUnsigned(s) { UnsignedChars(s); } else { UnsignedChars(s[1..]); NumberTail(s, 1); }
  }

  lemma NumberTail(s: string, n: nat)
    requires n <= |s|
    requires forall i :: 0 <= i < n ==> IsNumberChar(s[i])
    requires forall i :: 0 <= i < |s[n..]| ==> IsNumberChar(s[n..][i])
    ensures forall i :: 0 <= i < |s| ==> IsNumberChar(s[i])
  {
    forall i | n <= i < |s| ensures IsNumberChar(s[i]) {
      assert s[i] == s[n..][i - n];
    }
  }

  lemma ExponentChars(s: string)
    requires IsExponent(s)
    ensures forall i :: 0 <= i < |s| ==> IsNumberChar(s[i])
  {
    if s != "" {
      NumberTail(s, if |s| > 1 && (s[1] == '+' || s[1] == '-') then 2 else 1);
    }
  }

  lemma FractionChars(s: string)
    requires IsFraction(s)
    ensures forall i :: 0 <= i < |s| ==> IsNumberChar(s[i])
  {
    if IsExponent(s) {
      ExponentChars(s);
    } else {
      var n :| 1 < n <= |s| && AllDigits(s[1..n]) && IsExponent(s[n..]);
      ExponentChars(s[n..]);
      assert forall i :: 1 <= i < n ==> s[i] == s[1..n][i - 1];
      NumberTail(s, n);
    }
  }

  lemma UnsignedChars(s: string)
    requires IsUnsigned(s)
    ensures forall i :: 0 <= i < |s| ==> IsNumberChar(s[i])
  {
    hide IsFraction;
    if s[0] == '0' {
      FractionChars(s[1..]);
      NumberTail(s, 1);
    } else {
      var n :| 1 <= n <= |s| && AllDigits(s[1..n]) && IsFraction(s[n..]);
      FractionChars(s[n..]);
      forall i | 1 <= i < n ensures IsNumberChar(s[i]) { assert s[i] == s[1..n][i - 1]; }
      NumberTail(s, n);
    }
  }

  /** What may follow a printed value inside a printed text. */
  predicate Delimited(rest: string) {
    rest == "" || rest[0] == ',' || rest[0] == ']' || rest[0] == '}'
  }

  lemma HeadDiffers(s: string, head: string)
    requires s != "" && head != "" && s[0] != head[0]
    ensures !StartsWith(s, head)
  {
    assert |head| <= |s| ==> s[..|head|][0] == s[0];
  }

  lemma PrintedNumberDecodes(lexeme: string, rest: string)
    requires IsNumber(lexeme) && Delimited(rest)
    ensures ParseValue(lexeme + rest) == Some((Number(lexeme), rest))
  {
    NumberChars(lexeme);
    NumberSpanOf(lexeme, rest);
    var s := lexeme + rest;
    assert s[0] == lexeme[0];
    assert s[..|lexeme|] == lexeme && s[|lexeme|..] == rest;
    assert lexeme[0] == '-' || '0' <= lexeme[0] <= '9';
    HeadDiffers(s, "null");
    HeadDiffers(s, "true");
    HeadDiffers(s, "false");
  }

  lemma PrintedWordDecodes(v: Value, rest: string)
    requires v.Null? || v.Bool?
    ensures ParseValue(Print(v) + rest) == Some((v, rest))
  {
    var s := Print(v) + rest;
    var n := |Print(v)|;
    assert s[0] == Print(v)[0] && s[..n] == Print(v) && s[n..] == rest;
    if v.Bool? {
      HeadDiffers(s, "null");
      if !v.flag { HeadDiffers(s, "true"); }
    }
  }

  lemma PrintedStringDecodes(t: string, rest: string)
    ensures ParseValue(PrintText(t) + rest) == Some((Text(t), rest))
  {
    var s := PrintText(t) + rest;
    PrintedCharsDecode(t, rest);
    assert s[1..] == PrintChars(t) + "\"" + rest;
  }

  lemma BracketedItems(items: seq<Value>, inner: string, rest: string)
    requires inner != "" && !IsSpace(inner[0])
    requires if |items| == 0 then inner == "]" + rest else inner[0] != ']' && ParseItems(inner) == Some((items, rest))
    ensures ParseValue("[" + inner) == Some((List(items), rest))
  {
    assert ("[" + inner)[1..] == inner;
    assert ("]" + rest)[1..] == rest;
  }

  lemma BracedMembers(members: seq<Member>, inner: string, rest: string)
    requires IsDict(members)
    requires inner != "" && !IsSpace(inner[0])
    requires if |members| == 0 then inner == "}" + rest
             else inner[0] != '}' && ParseMembers(inner) == Some((members, rest))
    ensures ParseValue("{" + inner) == Some((Object(members), rest))
  {
    assert ("{" + inner)[1..] == inner;
    assert ("}" + rest)[1..] == rest;
    DictIsKept(members);
  }

  /** One item of a list, given how the text behind it is read. */
  lemma ItemsStep(v: Value, s: string, after: string, more: seq<Value>, end: string)
    requires ParseValue(s) == Some((v, after))
    requires after != "" && !IsSpace(after[0])
    requires if |more| == 0 then after == "]" + end
             else after[0] == ',' && after[1..] != "" && !IsSpace(after[1..][0])
                  && ParseItems(after[1..]) == Some((more, end))
    ensures ParseItems(s) == Some(([v] + more, end))
  {
    assert ("]" + end)[1..] == end;
    assert [v] + [] == [v];
  }

  lemma MembersStep(m: Member, s: string, after: string, more: seq<Member>, end: string)
    requires ParseMember(s) == Some((m, after))
    requires after != "" && !IsSpace(after[0])
    requires if |more| == 0 then after == "}" + end
             else after[0] == ',' && after[1..] != "" && !IsSpace(after[1..][0])
                  && ParseMembers(after[1..]) == Some((more, end))
    ensures ParseMembers(s) == Some(([m] + more, end))
  {
    assert ("}" + end)[1..] == end;
    assert [m] + [] == [m];
  }

  lemma MemberStep(key: string, v: Value, s: string, text: string, rest: string)
    requires s != "" && s[0] == '\"' && ParseChars(s[1..]) == Some((key, ":" + text))
    requires text != "" && !IsSpace(text[0]) && ParseValue(text) == Some((v, rest))
    ensures ParseMember(s) == Some((Member(key, v), rest))
  {
    assert (":" + text)[1..] == text;
  }

  /** The first character of a printed value is neither a space nor a closing bracket. */
  lemma PrintedHead(v: Value)
    requires Printable(v)
    ensures Print(v) != "" && !IsSpace(Print(v)[0]) && Print(v)[0] != ']' && Print(v)[0] != '}'
  {
    match v
    case Number(lexeme) => NumberChars(lexeme);
    case _ =>
  }

  lemma {:induction false} PrintedValueDecodes(v: Value, rest: string)
    requires Printable(v) && Delimited(rest)
    ensures ParseValue(Print(v) + rest) == Some((v, rest))
    decreases v, 0
  {
    match v
    case Null => PrintedWordDecodes(v, rest);
    case Bool(_) => PrintedWordDecodes(v, rest);
    case Number(lexeme) => PrintedNumberDecodes(lexeme, rest);
    case Text(t) => PrintedStringDecodes(t, rest);
    case List(items) =>
      hide ParseValue, ParseItems, IsSpace;
      var inner := PrintItems(items) + "]" + rest;
      assert Print(v) + rest == "[" + inner;
      if |items| == 0 {
        assert inner == "]" + rest;
      } else {
        PrintedItemsDecode(items, rest);
      }
      BracketedItems(items, inner, rest);
    case Object(members) =>
      hide ParseValue, ParseMembers, IsSpace, IsDict;
      var inner := PrintMembers(members) + "}" + rest;
      assert Print(v) + rest == "{" + inner;
      if |members| == 0 {
        assert inner == "}" + rest;
      } else {
        PrintedMembersDecode(members, rest);
      }
      BracedMembers(members, inner, rest);
  }

  lemma {:induction false} PrintedItemsDecode(items: seq<Value>, rest: string)
    requires |items| > 0 && forall i :: 0 <= i < |items| ==> Printable(items[i])
    ensures var s := PrintItems(items) + "]" + rest;
            s != "" && !IsSpace(s[0]) && s[0] != ']' && ParseItems(s) == Some((items, rest))
    decreases items, 1
  {
    var s := PrintItems(items) + "]" + rest;
    var more := items[1..];
    var after := if |more| == 0 then "]" + rest else "," + (PrintItems(more) + "]" + rest);
    assert s == Print(items[0]) + after;
    PrintedHead(items[0]);
    PrintedValueDecodes(items[0], after);
    if |more| > 0 {
      PrintedItemsDecode(more, rest);
      assert after[1..] == PrintItems(more) + "]" + rest;
    }
    ItemsStep(items[0], s, after, more, rest);
    assert items == [items[0]] + more;
  }

  lemma QuotedSplit(key: string, text: string, rest: string)
    ensures var s := ("\"" + key + "\"") + ":" + text + rest;
            s != "" && s[0] == '\"' && s[1..] == key + "\"" + (":" + (text + rest))
  {
  }

  lemma {:induction false} PrintedMemberDecodes(m: Member, rest: string)
    requires Printable(m.value) && Delimited(rest)
    ensures ParseMember(PrintMember(m) + rest) == Some((m, rest))
    decreases m, 1
  {
    var text := Print(m.value) + rest;
    var s := PrintMember(m) + rest;
    QuotedSplit(PrintChars(m.key), Print(m.value), rest);
    PrintedCharsDecode(m.key, ":" + text);
    PrintedHead(m.value);
    PrintedValueDecodes(m.value, rest);
    MemberStep(m.key, m.value, s, text, rest);
  }

  lemma {:induction false} PrintedMembersDecode(members: seq<Member>, rest: string)
    requires |members| > 0 && forall i :: 0 <= i < |members| ==> Printable(members[i].value)
    ensures var s := PrintMembers(members) + "}" + rest;
            s != "" && s[0] == '\"' && ParseMembers(s) == Some((members, rest))
    decreases members, 2
  {
    var s := PrintMembers(members) + "}" + rest;
    var more := members[1..];
    var after := if |more| == 0 then "}" + rest else "," + (PrintMembers(more) + "}" + rest);
    assert s == PrintMember(members[0]) + after;
    PrintedMemberDecodes(members[0], after);
    if |more| > 0 {
      PrintedMembersDecode(more, rest);
      assert after[1..] == PrintMembers(more) + "}" + rest;
    }
    MembersStep(members[0], s, after, more, rest);
    assert members == [members[0]] + more;
  }

  lemma {:induction false} DecodedValueIsPrintable(s: string)
    requires ParseValue(s).Some?
    ensures Printable(ParseValue(s).value.0)
    decreases |s|, 0
  {
    if s[0] == '[' {
      var inner := SkipSpace(s[1..]);
      if inner[0] != ']' { DecodedItemsArePrintable(inner); }
    } else if s[0] == '{' {
      var inner := SkipSpace(s[1..]);
      if inner[0] != '}' {
        DecodedMembersArePrintable(inner);
        DecodedObject(ParseMembers(inner).value.0);
      }
    }
  }

  lemma DecodedObject(pairs: seq<Member>)
    requires forall i :: 0 <= i < |pairs| ==> Printable(pairs[i].value)
    ensures Printable(Object(AsDict(pairs)))
  {
    hide IsDict, AsDict;
    DictOfPairs(pairs);
    var members := AsDict(pairs);
    forall i | 0 <= i < |members| ensures Printable(members[i].value) {
      assert members[i] in pairs;
    }
  }

  lemma {:induction false} DecodedItemsArePrintable(s: string)
    requires ParseItems(s).Some?
    ensures Printable(List(ParseItems(s).value.0))
    decreases |s|, 1
  {
    DecodedValueIsPrintable(s);
    var rest := SkipSpace(ParseValue(s).value.1);
    if rest[0] == ',' { DecodedItemsArePrintable(SkipSpace(rest[1..])); }
  }

  lemma {:induction false} DecodedMembersArePrintable(s: string)
    requires ParseMembers(s).Some?
    ensures forall i :: 0 <= i < |ParseMembers(s).value.0| ==> Printable(ParseMembers(s).value.0[i].value)
    decreases |s|, 2
  {
    DecodedMemberIsPrintable(s);
    var rest := SkipSpace(ParseMember(s).value.1);
    if rest[0] == ',' { DecodedMembersArePrintable(SkipSpace(rest[1..])); }
  }

  lemma {:induction false} DecodedMemberIsPrintable(s: string)
    requires ParseMember(s).Some?
    ensures Printable(ParseMember(s).value.0.value)
    decreases |s|, 1
  {
    DecodedValueIsPrintable(SkipSpace(SkipSpace(ParseChars(s[1..]).value.1)[1..]));
  }

  /** What a text decodes to can be printed again, and the printed text decodes to the same. */
  lemma DecodedTextPrints(s: string)
    requires Parse(s).Some?
    ensures Printable(Parse(s).value) && Parse(Print(Parse(s).value)) == Parse(s)
  {
    DecodedValueIsPrintable(SkipSpace(s));
    PrintedTextDecodes(Parse(s).value);
  }

  /** Decoding a printed value gives the value back. */
  lemma PrintedTextDecodes(v: Value)
    requires Printable(v)
    ensures Parse(Print(v)) == Some(v)
  {
    PrintedValueDecodes(v, "");
    assert Print(v) + "" == Print(v);
    PrintedHead(v);
  }
}
