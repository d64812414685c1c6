/**
 The prompt frame of the gateway: request data printed as JSON, its angle
 brackets escaped, between two tags that the model reads as delimiters.
 */
module PromptFrame {
  import opened Outcomes
  import opened Json

  /** Python's `str.replace` for a single character. */
  function Replace(s: string, c: char, subst: string): string {
    if |s| == 0 then "" else (if s[0] == c then subst else [s[0]]) + Replace(s[1..], c, subst)
  }

  const ESCAPED_LESS := "\\u003c"
  const ESCAPED_GREATER := "\\u003e"

  /** The two replacements applied to the printed request. */
  function EscapeAngles(s: string): string {
    Replace(Replace(s, '<', ESCAPED_LESS), '>', ESCAPED_GREATER)
  }

  predicate NoAngles(s: string) {
    forall i :: 0 <= i < |s| ==> s[i] != '<' && s[i] != '>'
  }

  function EscapeChar(c: char): string {
    if c == '<' then ESCAPED_LESS else if c == '>' then ESCAPED_GREATER else [c]
  }

  lemma ReplaceStep(s: string, c: char, subst: string)
    requires s != ""
    ensures Replace(s, c, subst) == (if s[0] == c then subst else [s[0]]) + Replace(s[1..], c, subst)
  {
  }

  lemma {:induction false} ReplaceConcat(a: string, b: string, c: char, subst: string)
    ensures Replace(a + b, c, subst) == Replace(a, c, subst) + Replace(b, c, subst)
  {
    if |a| == 0 {
      assert a + b == b;
    } else {
      hide Replace;
      ReplaceConcat(a[1..], b, c, subst);
      ReplaceFirst(a, b, c, subst);
    }
  }

  lemma ReplaceFirst(a: string, b: string, c: char, subst: string)
    requires a != "" && Replace(a[1..] + b, c, subst) == Replace(a[1..], c, subst) + Replace(b, c, subst)
    ensures Replace(a + b, c, subst) == Replace(a, c, subst) + Replace(b, c, subst)
  {
    hide Replace;
    var whole := a + b;
    assert whole[1..] == a[1..] + b && whole[0] == a[0];
    ReplaceStep(whole, c, subst);
    ReplaceStep(a, c, subst);
    Associates(if a[0] == c then subst else [a[0]], Replace(a[1..], c, subst), Replace(b, c, subst));
  }

  lemma Associates(x: string, y: string, z: string)
    ensures x + (y + z) == (x + y) + z
  {
  }

  lemma {:induction false} ReplaceAbsent(s: string, c: char, subst: string)
    requires forall i :: 0 <= i < |s| ==> s[i] != c
    ensures Replace(s, c, subst) == s
  {
    if |s| > 0 {
      ReplaceAbsent(s[1..], c, subst);
      assert s == [s[0]] + s[1..];
    }
  }

  lemma EscapeConcat(a: string, b: string)
    ensures EscapeAngles(a + b) == EscapeAngles(a) + EscapeAngles(b)
  {
    ReplaceConcat(a, b, '<', ESCAPED_LESS);
    ReplaceConcat(Replace(a, '<', ESCAPED_LESS), Replace(b, '<', ESCAPED_LESS), '>', ESCAPED_GREATER);
  }

  lemma EscapeHead(s: string)
    requires s != ""
    ensures EscapeAngles(s) == EscapeChar(s[0]) + EscapeAngles(s[1..])
  {
    var first := Replace([s[0]], '<', ESCAPED_LESS);
    assert s == [s[0]] + s[1..];
    EscapeConcat([s[0]], s[1..]);
    assert Replace("", '<', ESCAPED_LESS) == "" && Replace("", '>', ESCAPED_GREATER) == "";
    if s[0] == '<' {
      assert [s[0]][1..] == "" && first == ESCAPED_LESS + "" == ESCAPED_LESS;
      ReplaceAbsent(ESCAPED_LESS, '>', ESCAPED_GREATER);
    } else {
      assert [s[0]][1..] == "" && first == [s[0]] + "" == [s[0]];
      assert Replace([s[0]], '>', ESCAPED_GREATER) == EscapeChar(s[0]) + "" == EscapeChar(s[0]);
    }
  }

  /** The escaped block holds no angle bracket at all. */
  lemma {:induction false} EscapedHasNoAngles(s: string)
    ensures NoAngles(EscapeAngles(s))
  {
    if s != "" {
      EscapeHead(s);
      EscapedHasNoAngles(s[1..]);
    }
  }

  lemma {:induction false} EscapeKeeps(s: string)
    requires NoAngles(s)
    ensures EscapeAngles(s) == s
  {
    ReplaceAbsent(s, '<', ESCAPED_LESS);
    ReplaceAbsent(s, '>', ESCAPED_GREATER);
  }

  /** A head without angle brackets passes through the escape. */
  lemma EscapePrefix(s: string, n: nat)
    requires n <= |s| && NoAngles(s[..n])
    ensures EscapeAngles(s) == s[..n] + EscapeAngles(s[n..])
    ensures |EscapeAngles(s)| >= n && EscapeAngles(s)[..n] == s[..n] && EscapeAngles(s)[n..] == EscapeAngles(s[n..])
  {
    assert s == s[..n] + s[n..];
    EscapeConcat(s[..n], s[n..]);
    EscapeKeeps(s[..n]);
  }

  // ---------------------------------------------------------------------
  // The escape does not change what a text decodes to
  // ---------------------------------------------------------------------

  lemma {:induction false} SkipSpaceEscaped(s: string)
    ensures SkipSpace(EscapeAngles(s)) == EscapeAngles(SkipSpace(s))
  {
    if s == "" {
    } else {
      EscapeHead(s);
      if IsSpace(s[0]) {
        SkipSpaceEscaped(s[1..]);
        assert EscapeAngles(s)[1..] == EscapeAngles(s[1..]);
      }
    }
  }

  /** The head of an escaped text: nothing becomes empty, and only brackets change the head. */
  lemma EscapedHead(s: string)
    ensures EscapeAngles(s) == "" <==> s == ""
    ensures s != "" && s[0] != '<' && s[0] != '>' ==>
              EscapeAngles(s)[0] == s[0] && EscapeAngles(s)[1..] == EscapeAngles(s[1..])
    ensures s != "" && (s[0] == '<' || s[0] == '>') ==> EscapeAngles(s)[0] == '\\'
  {
    if s != "" { EscapeHead(s); }
  }

  lemma HexHasNoAngles(s: string)
    requires Hex4(s).Some?
    ensures |s| >= 4 && NoAngles(s[..4])
  {
  }

  lemma Hex4Prefix(s: string, t: string)
    requires |s| >= 4 && |t| >= 4 && s[..4] == t[..4]
    ensures Hex4(s) == Hex4(t)
  {
    assert forall i :: 0 <= i < 4 ==> s[i] == s[..4][i] && t[i] == t[..4][i];
  }

  lemma EscapeIsPlain(s: string)
    requires ParseEscape(s).Some?
    ensures NoAngles(s[..ParseEscape(s).value.1])
  {
    hide Hex4;
    var used := ParseEscape(s).value.1;
    if s[0] == 'u' {
      HexHasNoAngles(s[1..]);
      forall i | 1 <= i < 5 ensures s[i] != '<' && s[i] != '>' { assert s[i] == s[1..][..4][i - 1]; }
      if used == 11 {
        HexHasNoAngles(s[7..]);
        forall i | 7 <= i < 11 ensures s[i] != '<' && s[i] != '>' { assert s[i] == s[7..][..4][i - 7]; }
      }
    }
  }

  /** The digits from `k` on are the same in texts that agree that far. */
  lemma SameDigits(s: string, e: string, k: nat)
    requires k + 4 <= |s| && k + 4 <= |e| && forall i :: 0 <= i < k + 4 ==> e[i] == s[i]
    ensures Hex4(s[k..]) == Hex4(e[k..])
  {
    hide Hex4;
    assert s[k..][..4] == e[k..][..4];
    Hex4Prefix(s[k..], e[k..]);
  }

  /** Reading an escape sequence looks no further than the sequence. */
  lemma ParseEscapeIsLocal(s: string, e: string)
    requires ParseEscape(s).Some?
    requires ParseEscape(s).value.1 <= |e| && forall i :: 0 <= i < ParseEscape(s).value.1 ==> e[i] == s[i]
    ensures ParseEscape(e) == ParseEscape(s)
  {
    hide Hex4;
    if s[0] == 'u' {
      SameDigits(s, e, 1);
      if ParseEscape(s).value.1 == 11 { SameDigits(s, e, 7); }
    }
  }

  /** An escape sequence is untouched, since none of its characters is a bracket. */
  lemma EscapeSequenceKept(s: string)
    requires ParseEscape(s).Some?
    ensures var used := ParseEscape(s).value.1;
            ParseEscape(EscapeAngles(s)) == ParseEscape(s)
            && used <= |EscapeAngles(s)|
            && EscapeAngles(s)[used..] == EscapeAngles(s[used..])
  {
    hide ParseEscape, EscapeAngles, NoAngles;
    var used := ParseEscape(s).value.1;
    EscapeIsPlain(s);
    EscapePrefix(s, used);
    var e := EscapeAngles(s);
    forall i | 0 <= i < used ensures e[i] == s[i] { assert e[..used][i] == s[..used][i]; }
    ParseEscapeIsLocal(s, e);
  }

  lemma EscapedBracketDecodes(c: char, rest: string)
    requires c == '<' || c == '>'
    ensures ParseChars(EscapeChar(c) + rest) ==
            match ParseChars(rest) case None => None case Some((t, end)) => Some(([c] + t, end))
  {
    var s := EscapeChar(c) + rest;
    var tail := s[1..];
    assert s[0] == '\\' && tail[0] == 'u';
    assert tail[1] == '0' && tail[2] == '0' && tail[3] == '3' && tail[4] == if c == '<' then 'c' else 'e';
    assert Hex4(tail[1..]) == Some(c as int);
    assert s[6..] == rest;
  }

  lemma {:induction false} CharsEscaped(s: string)
    requires ParseChars(s).Some?
    ensures ParseChars(EscapeAngles(s)) ==
            Some((ParseChars(s).value.0, EscapeAngles(ParseChars(s).value.1)))
    decreases |s|
  {
    var e := EscapeAngles(s);
    EscapeHead(s);
    if s[0] == '\"' {
      assert e[1..] == EscapeAngles(s[1..]);
    } else if s[0] == '\\' {
      assert e[1..] == EscapeAngles(s[1..]);
      var used := ParseEscape(s[1..]).value.1;
      EscapeSequenceKept(s[1..]);
      assert s[1..][used..] == s[1 + used..];
      CharsEscaped(s[1 + used..]);
      assert e[1 + used..] == e[1..][used..];
    } else {
      CharsEscaped(s[1..]);
      if s[0] == '<' || s[0] == '>' {
        EscapedBracketDecodes(s[0], EscapeAngles(s[1..]));
      } else {
        assert e[1..] == EscapeAngles(s[1..]);
      }
    }
  }

  lemma {:induction false} NumberSpanEscaped(s: string)
    ensures NumberSpan(EscapeAngles(s)) == NumberSpan(s)
  {
    EscapedHead(s);
    if s != "" && IsNumberChar(s[0]) { NumberSpanEscaped(s[1..]); }
  }

  lemma StartsWithEscaped(s: string, word: string)
    requires NoAngles(word) && '\\' !in word
    ensures StartsWith(EscapeAngles(s), word) <==> StartsWith(s, word)
    ensures StartsWith(s, word) ==> EscapeAngles(s)[|word|..] == EscapeAngles(s[|word|..])
    decreases |word|
  {
    if word != "" {
      EscapedHead(s);
      if s != "" {
        StartsWithEscaped(s[1..], word[1..]);
        StartsWithHead(s, word);
        StartsWithHead(EscapeAngles(s), word);
        if StartsWith(s, word) {
          assert NoAngles(s[..|word|]);
          EscapePrefix(s, |word|);
        }
      }
    }
  }

  lemma StartsWithHead(s: string, word: string)
    requires s != "" && word != ""
    ensures StartsWith(s, word) <==> s[0] == word[0] && StartsWith(s[1..], word[1..])
  {
    if |word| <= |s| {
      assert s[..|word|] == [s[0]] + s[1..][..|word| - 1];
      assert word == [word[0]] + word[1..];
      assert s[..|word|][0] == s[0] && s[..|word|][1..] == s[1..][..|word| - 1];
    }
  }

  lemma {:induction false} ValueEscaped(s: string)
    requires ParseValue(s).Some?
    ensures ParseValue(EscapeAngles(s)) ==
            Some((ParseValue(s).value.0, EscapeAngles(ParseValue(s).value.1)))
    decreases |s|, 0
  {
    EscapedHead(s);
    if s[0] == '\"' {
      CharsEscaped(s[1..]);
    } else if s[0] == '[' || s[0] == '{' {
      SkipSpaceEscaped(s[1..]);
      var inner := SkipSpace(s[1..]);
      EscapedHead(inner);
      if s[0] == '[' {
        if inner[0] != ']' { ItemsEscaped(inner); }
      } else {
        if inner[0] != '}' { MembersEscaped(inner); }
      }
    } else {
      ScalarEscaped(s);
    }
  }

  lemma ScalarEscaped(s: string)
    requires ParseScalar(s).Some?
    ensures ParseScalar(EscapeAngles(s)) ==
            Some((ParseScalar(s).value.0, EscapeAngles(ParseScalar(s).value.1)))
  {
    StartsWithEscaped(s, "null");
    StartsWithEscaped(s, "true");
    StartsWithEscaped(s, "false");
    NumberSpanEscaped(s);
    if !StartsWith(s, "null") && !StartsWith(s, "true") && !StartsWith(s, "false") {
      EscapePrefix(s, NumberSpan(s));
    }
  }

  lemma {:induction false} ItemsEscaped(s: string)
    requires ParseItems(s).Some?
    ensures ParseItems(EscapeAngles(s)) ==
            Some((ParseItems(s).value.0, EscapeAngles(ParseItems(s).value.1)))
    decreases |s|, 1
  {
    ValueEscaped(s);
    var afterValue := ParseValue(s).value.1;
    SkipSpaceEscaped(afterValue);
    var rest := SkipSpace(afterValue);
    EscapedHead(rest);
    if rest[0] == ',' {
      SkipSpaceEscaped(rest[1..]);
      ItemsEscaped(SkipSpace(rest[1..]));
    }
  }

  lemma {:induction false} MemberEscaped(s: string)
    requires ParseMember(s).Some?
    ensures ParseMember(EscapeAngles(s)) ==
            Some((ParseMember(s).value.0, EscapeAngles(ParseMember(s).value.1)))
    decreases |s|, 1
  {
    EscapedHead(s);
    CharsEscaped(s[1..]);
    var afterKey := ParseChars(s[1..]).value.1;
    SkipSpaceEscaped(afterKey);
    var colon := SkipSpace(afterKey);
    EscapedHead(colon);
    SkipSpaceEscaped(colon[1..]);
    ValueEscaped(SkipSpace(colon[1..]));
  }

  lemma {:induction false} MembersEscaped(s: string)
    requires ParseMembers(s).Some?
    ensures ParseMembers(EscapeAngles(s)) ==
            Some((ParseMembers(s).value.0, EscapeAngles(ParseMembers(s).value.1)))
    decreases |s|, 2
  {
    MemberEscaped(s);
    var afterMember := ParseMember(s).value.1;
    SkipSpaceEscaped(afterMember);
    var rest := SkipSpace(afterMember);
    EscapedHead(rest);
    if rest[0] == ',' {
      SkipSpaceEscaped(rest[1..]);
      MembersEscaped(SkipSpace(rest[1..]));
    }
  }

  /** Any text that decodes at all decodes to the same value after the escape. */
  lemma EscapeKeepsMeaning(s: string)
    requires Parse(s).Some?
    ensures Parse(EscapeAngles(s)) == Parse(s)
  {
    SkipSpaceEscaped(s);
    ValueEscaped(SkipSpace(s));
    SkipSpaceEscaped(ParseValue(SkipSpace(s)).value.1);
    EscapedHead(SkipSpace(ParseValue(SkipSpace(s)).value.1));
  }

  // ---------------------------------------------------------------------
  // The frame
  // ---------------------------------------------------------------------

  const OPEN_TAG := "<openai_request_json>\n"
  const CLOSE_TAG := "\n</openai_request_json>"

  /** The prompt text: the instructions, the tagged block and the closing policy. */
  function Frame(instructions: string, request: Value, policy: string): string {
    instructions + OPEN_TAG + EscapeAngles(Print(request)) + CLOSE_TAG + policy
  }

  /** The position of the first occurrence of `part` in `s`. */
  function Find(s: string, part: string): (r: Option<nat>)
    ensures r.Some? ==> r.value + |part| <= |s|
  {
    if StartsWith(s, part) then Some(0)
    else if s == "" then None
    else
      var n :- Find(s[1..], part);
      Some(n + 1)
  }

  /** The text between the first opening tag and the first closing tag after it. */
  function Block(prompt: string): Option<string> {
    var start :- Find(prompt, OPEN_TAG);
    var body := prompt[start + |OPEN_TAG|..];
    var end :- Find(body, CLOSE_TAG);
    Some(body[..end])
  }

  /** A tag is found right behind a text without the character `mark` at the tag's index `k`. */
  lemma {:induction false} FindAfter(before: string, tag: string, after: string, k: nat)
    requires k < |tag|
    requires forall i :: 0 <= i < |before| ==> before[i] != tag[k]
    requires forall i :: 0 <= i < |tag| && i != k ==> tag[i] != tag[k]
    ensures Find(before + tag + after, tag) == Some(|before|)
  {
    var s := before + tag + after;
    if |before| == 0 {
      assert s[..|tag|] == tag;
    } else {
      FindAfter(before[1..], tag, after, k);
      assert s[1..] == before[1..] + tag + after;
      assert s[k] == if k < |before| then before[k] else tag[k - |before|];
      assert |tag| <= |s| && s[..|tag|][k] == s[k];
    }
  }

  /**
   For any request data the tagged block is unambiguous: cutting the prompt at its tags gives
   exactly the escaped text of the request. Decoding that gives the request back if and only if
   the request is JSON: `json.dumps` also prints NaN and infinite numbers, which are not.
   */
  lemma FrameDecodes(instructions: string, request: Value, policy: string)
    requires NoAngles(instructions)
    ensures Block(Frame(instructions, request, policy)) == Some(EscapeAngles(Print(request)))
    ensures Parse(EscapeAngles(Print(request))) == Some(request) <==> Printable(request)
  {
    hide EscapeAngles, Print, Parse, Find;
    var text := EscapeAngles(Print(request));
    var prompt := Frame(instructions, request, policy);
    assert prompt == instructions + OPEN_TAG + (text + CLOSE_TAG + policy);
    FindAfter(instructions, OPEN_TAG, text + CLOSE_TAG + policy, 0);
    var body := prompt[|instructions| + |OPEN_TAG|..];
    assert body == text + CLOSE_TAG + policy;
    EscapedHasNoAngles(Print(request));
    FindAfter(text, CLOSE_TAG, policy, 1);
    assert body[..|text|] == text;
    if Printable(request) {
      PrintedTextDecodes(request);
      EscapeKeepsMeaning(Print(request));
    }
    if Parse(text) == Some(request) { DecodedTextPrints(text); }
  }

  /**
   The condition cannot be dropped: a backslash before a bracket is no JSON escape,
   and escaping the bracket turns the malformed literal into a well-formed one.
   */
  lemma EscapeCanRepairMalformedText()
    ensures Parse("\"\\<\"").None?
    ensures Parse(EscapeAngles("\"\\<\"")) == Some(Text("\\u003c"))
  {
    MalformedLiteral("\"\\<\"");
    RepairedLiteral("\"\\<\"");
  }

  lemma MalformedLiteral(s: string)
    requires s == "\"\\<\""
    ensures Parse(s).None?
  {
    assert ParseEscape(s[1..][1..]).None?;
    assert ParseChars(s[1..]).None?;
  }

  lemma EscapedLiteral(s: string)
    requires s == "\"\\<\""
    ensures EscapeAngles(s) == "\"\\" + (ESCAPED_LESS + "\"")
  {
    assert s[..2] == "\"\\" && s[2..] == "<\"" && s[2..][1..] == "\"";
    EscapePrefix(s, 2);
    EscapeHead(s[2..]);
    EscapeKeeps("\"");
    hide EscapeAngles;
    assert EscapeAngles(s) == EscapeAngles(s)[..2] + EscapeAngles(s)[2..];
  }

  lemma PrintedRepair(t: string)
    requires t == "\\u003c"
    ensures PrintText(t) == "\"\\" + (ESCAPED_LESS + "\"")
  {
    PrintPlain(t[1..]);
    assert PrintChars(t) == PrintChar(t[0]) + PrintChars(t[1..]);
    hide PrintChars;
    assert PrintChar('\\') == "\\\\";
    assert ESCAPED_LESS == "\\" + t[1..];
  }

  lemma RepairedLiteral(s: string)
    requires s == "\"\\<\""
    ensures Parse(EscapeAngles(s)) == Some(Text("\\u003c"))
  {
    var t := "\\u003c";
    hide EscapeAngles, PrintText, Parse;
    EscapedLiteral(s);
    PrintedRepair(t);
    PrintedTextDecodes(Text(t));
  }

  /** Letters and digits print as themselves. */
  lemma {:induction false} PrintPlain(s: string)
    requires forall i :: 0 <= i < |s| ==> '0' <= s[i] <= '9' || 'a' <= s[i] <= 'z'
    ensures PrintChars(s) == s
  {
    if |s| > 0 {
      PrintPlain(s[1..]);
      assert s == [s[0]] + s[1..];
    }
  }
}
