/**
 The opaque page cursor: creation time and run id as JSON, in URL-safe base64 without
 padding (section 5 of RFC 4648). Times and ids are written and read by functions that
 stand for `isoformat`, `fromisoformat` and the text form of a UUID.
 */
module RunCursor {
  import opened Outcomes
  import opened Json

  type Byte = n: int | 0 <= n < 256

  // ---------------------------------------------------------------------
  // Base64
  // ---------------------------------------------------------------------

  function Letter(n: nat): char
    requires n < 64
  {
    if n < 26 then 'A' + n as char
    else if n < 52 then 'a' + (n - 26) as char
    else if n < 62 then '0' + (n - 52) as char
    else if n == 62 then '-' else '_'
  }

  /** The value of a character; the decoder also takes the letters of standard base64. */
  function LetterValue(c: char): Option<nat> {
    if 'A' <= c <= 'Z' then Some((c - 'A') as nat)
    else if 'a' <= c <= 'z' then Some((c - 'a') as nat + 26)
    else if '0' <= c <= '9' then Some((c - '0') as nat + 52)
    else if c == '-' || c == '+' then Some(62)
    else if c == '_' || c == '/' then Some(63)
    else None
  }

  /** Base64 without the final padding. */
  function EncodeBytes(b: seq<Byte>): string {
    if |b| == 0 then ""
    else if |b| == 1 then [Letter(b[0] / 4), Letter(b[0] % 4 * 16)]
    else if |b| == 2 then [Letter(b[0] / 4), Letter(b[0] % 4 * 16 + b[1] / 16), Letter(b[1] % 16 * 4)]
    else
      [Letter(b[0] / 4), Letter(b[0] % 4 * 16 + b[1] / 16), Letter(b[1] % 16 * 4 + b[2] / 64), Letter(b[2] % 64)]
      + EncodeBytes(b[3..])
  }

  /**
   The lenient decoder: `quad` characters of the current group are read, `left` holds
   their unfinished bits, `pads` padding characters came last. Other characters are
   skipped; a complete padding ends the input.
   */
  function DecodeFrom(s: string, quad: nat, left: nat, pads: nat): Option<seq<Byte>>
    requires quad < 4 && left < 64 && (quad == 2 ==> left < 16) && (quad == 3 ==> left < 4)
  {
    if |s| == 0 then if quad == 0 then Some([]) else None
    else if s[0] == '=' then
      if quad >= 2 && quad + pads + 1 >= 4 then Some([])
      else DecodeFrom(s[1..], quad, left, if quad >= 2 then pads + 1 else pads)
    else
      match LetterValue(s[0])
      case None => DecodeFrom(s[1..], quad, left, pads)
      case Some(v) =>
        if quad == 0 then DecodeFrom(s[1..], 1, v, 0)
        else if quad == 1 then After((left * 4 + v / 16) % 256, DecodeFrom(s[1..], 2, v % 16, 0))
        else if quad == 2 then After(left * 16 + v / 4, DecodeFrom(s[1..], 3, v % 4, 0))
        else After(left * 64 + v, DecodeFrom(s[1..], 0, 0, 0))
  }

  function After(b: Byte, rest: Option<seq<Byte>>): Option<seq<Byte>> {
    match rest case Some(r) => Some([b] + r) case None => None
  }

  /** The padding that `decode_run_cursor` adds back. */
  function Padding(n: nat): string {
    var missing := (4 - n % 4) % 4;
    if missing == 0 then "" else if missing == 1 then "=" else if missing == 2 then "==" else "==="
  }

  function DecodeText(s: string): Option<seq<Byte>> {
    DecodeFrom(s + Padding(|s|), 0, 0, 0)
  }

  lemma LetterRoundTrip(n: nat)
    requires n < 64
    ensures LetterValue(Letter(n)) == Some(n) && Letter(n) != '='
  {
  }

  lemma DecodeLetter(n: nat, rest: string, quad: nat, left: nat, pads: nat)
    requires n < 64 && quad < 4 && left < 64 && (quad == 2 ==> left < 16) && (quad == 3 ==> left < 4)
    ensures DecodeFrom([Letter(n)] + rest, quad, left, pads) ==
            if quad == 0 then DecodeFrom(rest, 1, n, 0)
            else if quad == 1 then After((left * 4 + n / 16) % 256, DecodeFrom(rest, 2, n % 16, 0))
            else if quad == 2 then After(left * 16 + n / 4, DecodeFrom(rest, 3, n % 4, 0))
            else After(left * 64 + n, DecodeFrom(rest, 0, 0, 0))
  {
    LetterRoundTrip(n);
    assert ([Letter(n)] + rest)[1..] == rest;
  }

  lemma SplitByte(b: Byte)
    ensures b / 4 < 64 && b % 4 * 16 < 64 && b / 4 * 4 + b % 4 == b
    ensures b / 16 < 16 && b % 16 * 4 < 64 && b / 16 * 16 + b % 16 == b
    ensures b / 64 < 4 && b % 64 < 64 && b / 64 * 64 + b % 64 == b
  {
  }

  /** The first byte comes back from two letters, whatever bits follow it in the second. */
  lemma FirstByte(b: Byte, low: nat, rest: string)
    requires low < 16
    ensures DecodeFrom([Letter(b / 4)] + ([Letter(b % 4 * 16 + low)] + rest), 0, 0, 0) ==
            After(b, DecodeFrom(rest, 2, low, 0))
  {
    hide DecodeFrom, Letter, LetterValue;
    SplitByte(b);
    assert (b % 4 * 16 + low) / 16 == b % 4 && (b % 4 * 16 + low) % 16 == low;
    DecodeLetter(b / 4, [Letter(b % 4 * 16 + low)] + rest, 0, 0, 0);
    DecodeLetter(b % 4 * 16 + low, rest, 1, b / 4, 0);
  }

  lemma SecondByte(b: Byte, low: nat, rest: string)
    requires low < 4
    ensures DecodeFrom([Letter(b % 16 * 4 + low)] + rest, 2, b / 16, 0) == After(b, DecodeFrom(rest, 3, low, 0))
  {
    hide DecodeFrom, Letter, LetterValue;
    SplitByte(b);
    DecodeLetter(b % 16 * 4 + low, rest, 2, b / 16, 0);
    assert (b % 16 * 4 + low) / 4 == b % 16 && (b % 16 * 4 + low) % 4 == low;
  }

  lemma ThirdByte(b: Byte, rest: string)
    ensures DecodeFrom([Letter(b % 64)] + rest, 3, b / 64, 0) == After(b, DecodeFrom(rest, 0, 0, 0))
  {
    hide DecodeFrom, Letter, LetterValue;
    SplitByte(b);
    DecodeLetter(b % 64, rest, 3, b / 64, 0);
  }

  lemma PaddingEnds(quad: nat, left: nat)
    requires (quad == 2 && left < 16) || (quad == 3 && left < 4)
    ensures DecodeFrom(Padding(quad), quad, left, 0) == Some([])
  {
    if quad == 2 { assert "=="[1..] == "="; }
  }

  lemma OneByteDecodes(b: Byte)
    ensures DecodeFrom([Letter(b / 4), Letter(b % 4 * 16)] + Padding(2), 0, 0, 0) == Some([b])
  {
    hide DecodeFrom, Letter;
    FirstByte(b, 0, Padding(2));
    PaddingEnds(2, 0);
    assert [Letter(b / 4), Letter(b % 4 * 16)] + Padding(2) ==
           [Letter(b / 4)] + ([Letter(b % 4 * 16 + 0)] + Padding(2));
    assert [b] + [] == [b];
  }

  lemma TwoBytesDecode(a: Byte, b: Byte)
    ensures DecodeFrom([Letter(a / 4), Letter(a % 4 * 16 + b / 16), Letter(b % 16 * 4)] + Padding(3), 0, 0, 0) ==
            Some([a, b])
  {
    hide DecodeFrom, Letter;
    SplitByte(b);
    var last := [Letter(b % 16 * 4 + 0)] + Padding(3);
    FirstByte(a, b / 16, last);
    SecondByte(b, 0, Padding(3));
    PaddingEnds(3, 0);
    assert [Letter(a / 4), Letter(a % 4 * 16 + b / 16), Letter(b % 16 * 4)] + Padding(3) ==
           [Letter(a / 4)] + ([Letter(a % 4 * 16 + b / 16)] + last);
    assert [a] + ([b] + []) == [a, b];
  }

  lemma ThreeBytesDecode(a: Byte, b: Byte, c: Byte, more: string, rest: seq<Byte>)
    requires DecodeFrom(more, 0, 0, 0) == Some(rest)
    ensures DecodeFrom([Letter(a / 4), Letter(a % 4 * 16 + b / 16), Letter(b % 16 * 4 + c / 64), Letter(c % 64)]
                       + more, 0, 0, 0)
            == Some([a, b, c] + rest)
  {
    hide DecodeFrom, Letter;
    SplitByte(b);
    SplitByte(c);
    var third := [Letter(c % 64)] + more;
    var second := [Letter(b % 16 * 4 + c / 64)] + third;
    FirstByte(a, b / 16, second);
    SecondByte(b, c / 64, third);
    ThirdByte(c, more);
    assert [Letter(a / 4), Letter(a % 4 * 16 + b / 16), Letter(b % 16 * 4 + c / 64), Letter(c % 64)] + more ==
           [Letter(a / 4)] + ([Letter(a % 4 * 16 + b / 16)] + second);
    assert [a] + ([b] + ([c] + rest)) == [a, b, c] + rest;
  }

  function EncodeThree(a: Byte, b: Byte, c: Byte): string {
    [Letter(a / 4), Letter(a % 4 * 16 + b / 16), Letter(b % 16 * 4 + c / 64), Letter(c % 64)]
  }

  lemma EncodeStep(b: seq<Byte>)
    requires |b| >= 3
    ensures EncodeBytes(b) == EncodeThree(b[0], b[1], b[2]) + EncodeBytes(b[3..])
  {
    hide Letter;
  }

  lemma FirstThreeDecode(b: seq<Byte>)
    requires |b| >= 3 && DecodeFrom(EncodeBytes(b[3..]) + Padding(|EncodeBytes(b[3..])|), 0, 0, 0) == Some(b[3..])
    ensures DecodeFrom(EncodeBytes(b) + Padding(|EncodeBytes(b)|), 0, 0, 0) == Some(b)
  {
    hide DecodeFrom, Letter, Padding, EncodeBytes;
    var more := EncodeBytes(b[3..]);
    var head := EncodeThree(b[0], b[1], b[2]);
    EncodeStep(b);
    PaddingRepeats(|more|);
    ThreeBytesDecode(b[0], b[1], b[2], more + Padding(|more|), b[3..]);
    assert (head + more) + Padding(|more|) == head + (more + Padding(|more|));
    assert b == [b[0], b[1], b[2]] + b[3..];
  }

  lemma {:induction false} EncodedBytesDecode(b: seq<Byte>)
    ensures DecodeFrom(EncodeBytes(b) + Padding(|EncodeBytes(b)|), 0, 0, 0) == Some(b)
  {
    if |b| == 0 {
      assert EncodeBytes(b) + Padding(0) == "";
    } else if |b| < 3 {
      hide DecodeFrom, Letter, Padding;
      if |b| == 1 {
        OneByteDecodes(b[0]);
        assert b == [b[0]];
      } else {
        TwoBytesDecode(b[0], b[1]);
        assert b == [b[0], b[1]];
      }
    } else {
      hide *;
      EncodedBytesDecode(b[3..]);
      FirstThreeDecode(b);
    }
  }

  lemma PaddingRepeats(n: nat)
    ensures Padding(n + 4) == Padding(n)
  {
  }

  /** Decoding after restoring the padding undoes encoding, for every byte string. */
  lemma Base64RoundTrip(b: seq<Byte>)
    ensures DecodeText(EncodeBytes(b)) == Some(b)
  {
    EncodedBytesDecode(b);
  }

  // ---------------------------------------------------------------------
  // The cursor
  // ---------------------------------------------------------------------

  /** How times and ids are written and read; a time may lack its zone. */
  datatype Texts<!T, !Id> = Texts(showTime: T -> string, readTime: string -> Option<T>, hasZone: T -> bool,
                                  showId: Id -> string, readId: string -> Option<Id>)

  predicate IsAscii(s: string) {
    forall i :: 0 <= i < |s| ==> s[i] < 128 as char
  }

  ghost predicate Faithful<T(!new), Id(!new)>(x: Texts<T, Id>) {
    && (forall t :: x.readTime(x.showTime(t)) == Some(t) && IsAscii(x.showTime(t)))
    && (forall i :: x.readId(x.showId(i)) == Some(i) && IsAscii(x.showId(i)))
  }

  function BytesOf(s: string): seq<Byte> {
    seq(|s|, i requires 0 <= i < |s| => (if s[i] < 128 as char then s[i] as int else 63) as Byte)
  }

  /** Bytes beyond ASCII would need UTF-8; written cursors have none, so they are refused here. */
  function TextOf(b: seq<Byte>): Option<string> {
    if forall i :: 0 <= i < |b| ==> b[i] < 128 then Some(seq(|b|, i requires 0 <= i < |b| => b[i] as char)) else None
  }

  function EncodeCursor<T, Id>(x: Texts<T, Id>, createdAt: T, id: Id): string {
    EncodeBytes(BytesOf(Print(List([Text(x.showTime(createdAt)), Text(x.showId(id))]))))
  }

  datatype CursorError = InvalidCursor

  function DecodeCursor<T, Id>(x: Texts<T, Id>, cursor: string): Result<(T, Id), CursorError> {
    if !IsAscii(cursor) then Err(InvalidCursor)
    else
      match DecodeText(cursor)
      case None => Err(InvalidCursor)
      case Some(bytes) =>
        match TextOf(bytes)
        case None => Err(InvalidCursor)
        case Some(text) =>
          match Parse(text)
          case None => Err(InvalidCursor)
          case Some(value) => ReadPair(x, value)
  }

  function ReadPair<T, Id>(x: Texts<T, Id>, value: Value): Result<(T, Id), CursorError> {
    if value.List? && |value.items| == 2 && value.items[0].Text? && value.items[1].Text? then
      match x.readTime(value.items[0].chars)
      case None => Err(InvalidCursor)
      case Some(t) =>
        if !x.hasZone(t) then Err(InvalidCursor)
        else match x.readId(value.items[1].chars) case None => Err(InvalidCursor) case Some(id) => Ok((t, id))
    else Err(InvalidCursor)
  }

  lemma AsciiBytes(s: string)
    requires IsAscii(s)
    ensures TextOf(BytesOf(s)) == Some(s)
  {
    var b := BytesOf(s);
    assert forall i :: 0 <= i < |b| ==> b[i] < 128 && b[i] as char == s[i];
    assert TextOf(b).value == s;
  }

  lemma {:induction false} PrintedCharsAreAscii(s: string)
    requires IsAscii(s)
    ensures IsAscii(PrintChars(s))
  {
    if |s| > 0 { PrintedCharsAreAscii(s[1..]); }
  }

  lemma PrintedPairIsAscii(a: string, b: string)
    requires IsAscii(a) && IsAscii(b)
    ensures IsAscii(Print(List([Text(a), Text(b)])))
  {
    PrintedCharsAreAscii(a);
    PrintedCharsAreAscii(b);
    hide PrintChars;
    PrintedPair(Text(a), Text(b));
    hide PrintItems;
    assert IsAscii(PrintText(a)) && IsAscii(PrintText(b));
  }

  lemma PrintedPair(x: Value, y: Value)
    ensures Print(List([x, y])) == "[" + (Print(x) + "," + Print(y)) + "]"
  {
    var one, two := [y], [x, y];
    assert two[1..] == one;
    assert PrintItems(one) == Print(y);
    assert PrintItems(two) == Print(x) + "," + PrintItems(one);
  }

  lemma {:induction false} EncodedIsAscii(b: seq<Byte>)
    ensures IsAscii(EncodeBytes(b))
  {
    if |b| >= 3 { EncodedIsAscii(b[3..]); }
  }

  /** A cursor decodes to the pair it was made of, exactly when the time carries its zone. */
  lemma CursorRoundTrip<T(!new), Id(!new)>(x: Texts<T, Id>, createdAt: T, id: Id)
    requires Faithful(x)
    ensures DecodeCursor(x, EncodeCursor(x, createdAt, id)) ==
            if x.hasZone(createdAt) then Ok((createdAt, id)) else Err(InvalidCursor)
  {
    var a, b := x.showTime(createdAt), x.showId(id);
    assert IsAscii(a) && IsAscii(b);
    var value := List([Text(a), Text(b)]);
    PrintedPairIsAscii(a, b);
    hide Print, Parse, EncodeBytes, BytesOf, TextOf, IsAscii, DecodeText;
    var text := Print(value);
    AsciiBytes(text);
    EncodedIsAscii(BytesOf(text));
    Base64RoundTrip(BytesOf(text));
    assert Printable(value);
    PrintedTextDecodes(value);
  }

  lemma CursorIsNotEmpty<T, Id>(x: Texts<T, Id>, createdAt: T, id: Id)
    ensures EncodeCursor(x, createdAt, id) != ""
  {
    hide Print;
    var value := List([Text(x.showTime(createdAt)), Text(x.showId(id))]);
    PrintedPair(value.items[0], value.items[1]);
    assert |BytesOf(Print(value))| > 0;
  }

  /** Cursors of different rows differ. */
  lemma CursorsDiffer<T(!new), Id(!new)>(x: Texts<T, Id>, t: T, i: Id, u: T, j: Id)
    requires Faithful(x) && x.hasZone(t) && x.hasZone(u) && (t, i) != (u, j)
    ensures EncodeCursor(x, t, i) != EncodeCursor(x, u, j)
  {
    CursorRoundTrip(x, t, i);
    CursorRoundTrip(x, u, j);
  }
}
