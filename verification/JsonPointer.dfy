/**
 Local JSON Pointers (RFC 6901) in URI fragment form, as the `$ref` expander of the
 gateway resolves them: `#`, or `#/` followed by segments with `~0` and `~1` escapes.
 */
module JsonPointer {
  import opened Outcomes
  import opened Json

  datatype ToolSchemaError =
    | ExternalReference
    | InvalidEscape
    | Unresolvable
    | NotASchema
    | ReferenceNotText
    | RecursiveReference
    | DepthLimit
    | NodeLimit
    | SizeLimit
    | RecursiveContainer
    | DuplicateFunction
    | InvalidSchema

  const MAX_ARRAY_INDEX_DIGITS: nat := 10

  // ---------------------------------------------------------------------
  // Segments
  // ---------------------------------------------------------------------

  /** Undoes the escapes of one segment; none if a tilde is not followed by 0 or 1. */
  function Decode(segment: string): Option<string> {
    if segment == "" then Some("")
    else if segment[0] != '~' then
      var rest :- Decode(segment[1..]);
      Some([segment[0]] + rest)
    else if |segment| == 1 || (segment[1] != '0' && segment[1] != '1') then None
    else
      var rest :- Decode(segment[2..]);
      Some([if segment[1] == '1' then '/' else '~'] + rest)
  }

  /** The segment that names `token` (section 3 of RFC 6901). */
  function Encode(token: string): string {
    if token == "" then ""
    else (if token[0] == '~' then "~0" else if token[0] == '/' then "~1" else [token[0]]) + Encode(token[1..])
  }

  lemma {:induction false} DecodeEncode(token: string)
    ensures Decode(Encode(token)) == Some(token)
    ensures '/' !in Encode(token)
  {
    if token != "" {
      DecodeEncode(token[1..]);
      var e := Encode(token);
      var n := if token[0] == '~' || token[0] == '/' then 2 else 1;
      assert e[n..] == Encode(token[1..]);
      assert token == [token[0]] + token[1..];
    }
  }

  lemma {:induction false} EncodeDecode(segment: string)
    requires '/' !in segment && Decode(segment).Some?
    ensures Encode(Decode(segment).value) == segment
  {
    if segment != "" {
      var n := if segment[0] != '~' then 1 else 2;
      EncodeDecode(segment[n..]);
      var token := Decode(segment).value;
      assert token[1..] == Decode(segment[n..]).value;
      assert segment == segment[..n] + segment[n..];
    }
  }

  /** The index loop of the gateway decodes exactly as the recursive definition does. */
  method DecodePointerSegment(segment: string) returns (r: Result<string, ToolSchemaError>)
    ensures r == match Decode(segment) case Some(t) => Ok(t) case None => Err(InvalidEscape)
  {
    var decoded := "";
    var index := 0;
    assert segment[0..] == segment && forall t: string :: "" + t == t;
    while index < |segment|
      invariant 0 <= index <= |segment|
      invariant Decode(segment) ==
                match Decode(segment[index..]) case Some(t) => Some(decoded + t) case None => None
    {
      ghost var before := decoded;
      ghost var rest := segment[index..];
      if segment[index] != '~' {
        decoded := decoded + [segment[index]];
        index := index + 1;
        assert rest[1..] == segment[index..];
        assert forall t: string :: before + ([rest[0]] + t) == decoded + t;
        continue;
      }
      if index + 1 == |segment| || (segment[index + 1] != '0' && segment[index + 1] != '1') {
        return Err(InvalidEscape);
      }
      decoded := decoded + [if segment[index + 1] == '1' then '/' else '~'];
      index := index + 2;
      assert rest[2..] == segment[index..];
      assert forall t: string ::
          before + ([if rest[1] == '1' then '/' else '~'] + t) == decoded + t;
    }
    assert segment[index..] == "" && decoded + "" == decoded;
    return Ok(decoded);
  }

  // ---------------------------------------------------------------------
  // Splitting at slashes
  // ---------------------------------------------------------------------

  /** Python's `s.split("/")`. */
  function Split(s: string): (r: seq<string>)
    ensures |r| >= 1
    ensures forall i :: 0 <= i < |r| ==> '/' !in r[i]
  {
    if s == "" then [""]
    else
      var rest := Split(s[1..]);
      if s[0] == '/' then [""] + rest else [[s[0]] + rest[0]] + rest[1..]
  }

  function Join(parts: seq<string>): string
    requires |parts| >= 1
  {
    if |parts| == 1 then parts[0] else parts[0] + "/" + Join(parts[1..])
  }

  lemma {:induction false} JoinSplit(s: string)
    ensures Join(Split(s)) == s
  {
    if s != "" {
      JoinSplit(s[1..]);
      var rest := Split(s[1..]);
      if s[0] == '/' {
        assert Split(s)[1..] == rest;
        assert s == "" + "/" + s[1..];
      } else {
        assert Split(s)[1..] == rest[1..];
        assert Split(s)[0] == [s[0]] + rest[0];
        assert s == [s[0]] + s[1..];
      }
    }
  }

  lemma {:induction false} SplitPlain(s: string)
    requires '/' !in s
    ensures Split(s) == [s]
  {
    if s != "" {
      SplitPlain(s[1..]);
      assert s == [s[0]] + s[1..];
    }
  }

  lemma {:induction false} SplitAt(head: string, rest: string)
    requires '/' !in head
    ensures Split(head + "/" + rest) == [head] + Split(rest)
  {
    var s := head + "/" + rest;
    if head == "" {
      assert s[1..] == rest;
    } else {
      SplitAt(head[1..], rest);
      assert s[1..] == head[1..] + "/" + rest;
      assert head == [head[0]] + head[1..];
    }
  }

  lemma {:induction false} SplitJoin(parts: seq<string>)
    requires |parts| >= 1 && forall i :: 0 <= i < |parts| ==> '/' !in parts[i]
    ensures Split(Join(parts)) == parts
  {
    if |parts| == 1 {
      SplitPlain(parts[0]);
    } else {
      SplitJoin(parts[1..]);
      SplitAt(parts[0], Join(parts[1..]));
      assert parts == [parts[0]] + parts[1..];
    }
  }

  // ---------------------------------------------------------------------
  // Array indices
  // ---------------------------------------------------------------------

  predicate IsDecimalDigits(s: string) {
    s != "" && forall i :: 0 <= i < |s| ==> '0' <= s[i] <= '9'
  }

  /** Python's `int` of a digit string. */
  function IntOf(digits: string): nat
    requires forall i :: 0 <= i < |digits| ==> '0' <= digits[i] <= '9'
  {
    if digits == "" then 0
    else IntOf(digits[..|digits| - 1]) * 10 + (digits[|digits| - 1] as int - '0' as int)
  }

  function ArrayIndex(token: string): Option<nat> {
    if !IsDecimalDigits(token) || |token| > MAX_ARRAY_INDEX_DIGITS || (|token| > 1 && token[0] == '0') then None
    else Some(IntOf(token))
  }

  /** The decimal numeral of `n`. */
  function Decimal(n: nat): (s: string)
    ensures IsDecimalDigits(s)
    ensures |s| > 1 ==> s[0] != '0'
    ensures n > 0 ==> s[0] != '0'
  {
    var digit := [('0' as int + n % 10) as char];
    if n < 10 then digit else Decimal(n / 10) + digit
  }

  function Power10(k: nat): (p: nat)
    ensures p > 0
  {
    if k == 0 then 1 else 10 * Power10(k - 1)
  }

  lemma {:induction false} IntOfDecimal(n: nat)
    ensures IntOf(Decimal(n)) == n
  {
    var s := Decimal(n);
    if n < 10 {
      assert s[..0] == "";
    } else {
      IntOfDecimal(n / 10);
      assert s[..|s| - 1] == Decimal(n / 10);
    }
  }

  lemma {:induction false} DecimalOfInt(s: string)
    requires IsDecimalDigits(s) && (|s| > 1 ==> s[0] != '0')
    ensures Decimal(IntOf(s)) == s
  {
    var head := s[..|s| - 1];
    var last := s[|s| - 1];
    if head == "" {
      assert s == [last];
    } else {
      DecimalOfInt(head);
      IntOfPositive(head);
      assert IntOf(s) / 10 == IntOf(head) && IntOf(s) % 10 == last as int - '0' as int;
      assert s == head + [last];
    }
  }

  lemma {:induction false} IntOfPositive(s: string)
    requires IsDecimalDigits(s) && s[0] != '0'
    ensures IntOf(s) > 0
  {
    if |s| > 1 { IntOfPositive(s[..|s| - 1]); }
  }

  lemma {:induction false} DecimalLength(n: nat, k: nat)
    ensures |Decimal(n)| <= k + 1 <==> n < Power10(k + 1)
    decreases k
  {
    if k == 0 {
      assert Power10(1) == 10;
    } else if n >= 10 {
      DecimalLength(n / 10, k - 1);
    } else {
      assert Power10(k) >= 1;
    }
  }

  /** An element has exactly one index token, as long as the token has at most ten digits. */
  lemma IndexIsUnique(token: string, n: nat)
    ensures ArrayIndex(token) == Some(n) <==> token == Decimal(n) && n < 10_000_000_000
  {
    DecimalLength(n, 9);
    assert Power10(10) == 10_000_000_000;
    IntOfDecimal(n);
    if ArrayIndex(token) == Some(n) { DecimalOfInt(token); }
  }

  // ---------------------------------------------------------------------
  // Resolution
  // ---------------------------------------------------------------------

  /** One step into a container. */
  function Enter(current: Value, token: string): Option<Value> {
    match current
    case Object(members) => Get(members, token)
    case List(items) =>
      var position :- ArrayIndex(token);
      if position < |items| then Some(items[position]) else None
    case _ => None
  }

  /** The value that a sequence of tokens names (section 4 of RFC 6901). */
  function Follow(current: Value, tokens: seq<string>): Option<Value>
    decreases |tokens|
  {
    if |tokens| == 0 then Some(current)
    else
      var next :- Enter(current, tokens[0]);
      Follow(next, tokens[1..])
  }

  function Walk(current: Value, segments: seq<string>): Option<Value>
    decreases |segments|
  {
    if |segments| == 0 then Some(current)
    else
      var token :- Decode(segments[0]);
      var next :- Enter(current, token);
      Walk(next, segments[1..])
  }

  predicate IsLocal(pointer: string) {
    pointer == "#" || StartsWith(pointer, "#/")
  }

  function Resolve(root: Value, pointer: string): Option<Value> {
    if pointer == "#" then Some(root)
    else if !IsLocal(pointer) then None
    else Walk(root, Split(pointer[2..]))
  }

  function EncodeAll(tokens: seq<string>): (segments: seq<string>)
    ensures |segments| == |tokens|
    ensures forall i :: 0 <= i < |tokens| ==> segments[i] == Encode(tokens[i])
  {
    if |tokens| == 0 then [] else [Encode(tokens[0])] + EncodeAll(tokens[1..])
  }

  /** The pointer that names a sequence of tokens. */
  function PointerOf(tokens: seq<string>): string {
    if |tokens| == 0 then "#" else "#/" + Join(EncodeAll(tokens))
  }

  lemma {:induction false} WalkEncoded(current: Value, tokens: seq<string>)
    ensures Walk(current, EncodeAll(tokens)) == Follow(current, tokens)
    decreases |tokens|
  {
    if |tokens| > 0 {
      DecodeEncode(tokens[0]);
      assert EncodeAll(tokens)[1..] == EncodeAll(tokens[1..]);
      if Enter(current, tokens[0]).Some? {
        WalkEncoded(Enter(current, tokens[0]).value, tokens[1..]);
      }
    }
  }

  lemma WalkStep(current: Value, segments: seq<string>)
    requires |segments| > 0 && Walk(current, segments).Some?
    ensures Decode(segments[0]).Some? && Enter(current, Decode(segments[0]).value).Some?
    ensures Walk(Enter(current, Decode(segments[0]).value).value, segments[1..]).Some?
  {
    hide Decode, Enter;
  }

  lemma EncodeAllStep(token: string, rest: seq<string>)
    ensures EncodeAll([token] + rest) == [Encode(token)] + EncodeAll(rest)
  {
    assert ([token] + rest)[1..] == rest;
  }

  lemma {:induction false} WalkedSegmentsAreEncoded(current: Value, segments: seq<string>) returns (tokens: seq<string>)
    requires Walk(current, segments).Some? && forall i :: 0 <= i < |segments| ==> '/' !in segments[i]
    ensures EncodeAll(tokens) == segments
    decreases |segments|
  {
    if |segments| == 0 {
      tokens := [];
    } else {
      hide *;
      WalkStep(current, segments);
      var token := Decode(segments[0]).value;
      EncodeDecode(segments[0]);
      var rest := WalkedSegmentsAreEncoded(Enter(current, token).value, segments[1..]);
      tokens := [token] + rest;
      EncodeAllStep(token, rest);
      assert segments == [segments[0]] + segments[1..];
    }
  }

  /** Every token sequence has a pointer, and the pointer resolves to what the tokens name. */
  lemma PointerNames(root: Value, tokens: seq<string>)
    ensures Resolve(root, PointerOf(tokens)) == Follow(root, tokens)
  {
    if |tokens| > 0 {
      var segments := EncodeAll(tokens);
      forall i | 0 <= i < |segments| ensures '/' !in segments[i] { DecodeEncode(tokens[i]); }
      SplitJoin(segments);
      assert PointerOf(tokens)[2..] == Join(segments);
      assert PointerOf(tokens)[..2] == "#/";
      WalkEncoded(root, tokens);
    }
  }

  /** A reference resolves exactly when it is the pointer of tokens that lead to the value. */
  lemma ResolveExactly(root: Value, pointer: string, target: Value)
    ensures Resolve(root, pointer) == Some(target)
            <==> exists tokens :: pointer == PointerOf(tokens) && Follow(root, tokens) == Some(target)
  {
    forall tokens | pointer == PointerOf(tokens) ensures Resolve(root, pointer) == Follow(root, tokens) {
      PointerNames(root, tokens);
    }
    if Resolve(root, pointer) == Some(target) {
      if pointer == "#" {
        assert pointer == PointerOf([]) && Follow(root, []) == Some(target);
      } else {
        var segments := Split(pointer[2..]);
        var tokens := WalkedSegmentsAreEncoded(root, segments);
        JoinSplit(pointer[2..]);
        assert pointer == pointer[..2] + pointer[2..];
        assert pointer == PointerOf(tokens);
        WalkEncoded(root, tokens);
      }
    }
  }

  /** One turn of that loop: the dictionary, list and scalar branches. */
  method EnterContainer(current: Value, segment: string) returns (r: Result<Value, ToolSchemaError>)
    ensures r == match Enter(current, segment) case Some(v) => Ok(v) case None => Err(Unresolvable)
  {
    match current
    case Object(members) =>
      var found := Get(members, segment);
      if found.None? { return Err(Unresolvable); }
      return Ok(found.value);
    case List(items) =>
      if !IsDecimalDigits(segment) || |segment| > MAX_ARRAY_INDEX_DIGITS || (|segment| > 1 && segment[0] == '0') {
        return Err(Unresolvable);
      }
      var position := IntOf(segment);
      if position >= |items| { return Err(Unresolvable); }
      return Ok(items[position]);
    case _ => return Err(Unresolvable);
  }

  lemma {:induction false} WalkInParts(current: Value, a: seq<string>, b: seq<string>)
    ensures Walk(current, a + b) == match Walk(current, a) case Some(v) => Walk(v, b) case None => None
    decreases |a|
  {
    if |a| == 0 {
      assert a + b == b;
    } else {
      assert (a + b)[1..] == a[1..] + b;
      if Decode(a[0]).Some? && Enter(current, Decode(a[0]).value).Some? {
        WalkInParts(Enter(current, Decode(a[0]).value).value, a[1..], b);
      }
    }
  }

  function Segments(pointer: string): seq<string>
    requires IsLocal(pointer)
  {
    if pointer == "#" then [] else Split(pointer[2..])
  }

  /** The walk gets as far as segment `i` and stops there, with this error. */
  ghost predicate StopsAt(root: Value, segments: seq<string>, i: nat, error: ToolSchemaError) {
    && i < |segments|
    && Walk(root, segments[..i]).Some?
    && match Decode(segments[i])
       case None => error == InvalidEscape
       case Some(token) => error == Unresolvable && Enter(Walk(root, segments[..i]).value, token).None?
  }

  lemma WalkStopsOnce(root: Value, segments: seq<string>, i: nat, j: nat, e: ToolSchemaError, f: ToolSchemaError)
    requires StopsAt(root, segments, i, e) && StopsAt(root, segments, j, f)
    ensures i == j && e == f
  {
    if i < j { StopIsFinal(root, segments, i, j, e); }
    if j < i { StopIsFinal(root, segments, j, i, f); }
  }

  lemma StopIsFinal(root: Value, segments: seq<string>, i: nat, n: nat, e: ToolSchemaError)
    requires StopsAt(root, segments, i, e) && i < n <= |segments|
    ensures Walk(root, segments[..n]).None?
  {
    hide Decode, Enter;
    assert segments[..n] == segments[..i] + segments[i..n];
    WalkInParts(root, segments[..i], segments[i..n]);
    assert segments[i..n][0] == segments[i];
  }

  /** The loop of the gateway over the segments of a reference; each error names what stopped it. */
  method ResolvePointer(root: Value, pointer: string) returns (r: Result<Value, ToolSchemaError>)
    ensures r.Ok? <==> Resolve(root, pointer).Some?
    ensures r.Ok? ==> Resolve(root, pointer) == Some(r.value)
    ensures r == Err(ExternalReference) <==> !IsLocal(pointer)
    ensures r.Err? && IsLocal(pointer) ==> exists i :: StopsAt(root, Segments(pointer), i, r.error)
  {
    if pointer == "#" { return Ok(root); }
    if !StartsWith(pointer, "#/") { return Err(ExternalReference); }
    hide Decode, Enter;
    var current := root;
    var segments := Split(pointer[2..]);
    assert Segments(pointer) == segments;
    for i := 0 to |segments|
      invariant Walk(root, segments[..i]) == Some(current)
    {
      assert segments[..i + 1] == segments[..i] + [segments[i]];
      WalkInParts(root, segments[..i], [segments[i]]);
      OneStep(current, segments[i]);
      if Decode(segments[i]).None? {
        assert StopsAt(root, segments, i, InvalidEscape);
        StopIsFinal(root, segments, i, |segments|, InvalidEscape);
      } else if Enter(current, Decode(segments[i]).value).None? {
        assert StopsAt(root, segments, i, Unresolvable);
        StopIsFinal(root, segments, i, |segments|, Unresolvable);
      }
      assert segments[..|segments|] == segments;
      var segment :- DecodePointerSegment(segments[i]);
      current :- EnterContainer(current, segment);
    }
    assert segments[..|segments|] == segments;
    return Ok(current);
  }

  lemma OneStep(current: Value, segment: string)
    ensures Walk(current, [segment]) ==
            match Decode(segment) case Some(token) => Enter(current, token) case None => None
  {
    hide Decode, Enter;
  }
}
