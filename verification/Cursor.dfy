/** Opaque page cursors: a small JSON object in unpadded base64url text, section 5 of RFC 4648.
    apps/api/monitube_api/repositories.py */
module Cursor {
  import opened Common

  // ---- base64url -------------------------------------------------------------------

  type Byte = n: int | 0 <= n < 256

  /** The digit alphabet: A-Z, a-z, 0-9, '-', '_'. */
  function Digit(v: int): char
    requires 0 <= v < 64
  {
    if v < 26 then (v + 65) as char
    else if v < 52 then (v + 71) as char
    else if v < 62 then (v - 4) as char
    else if v == 62 then '-' else '_'
  }

  /** The value of a digit; the decoder maps '-' and '_' onto '+' and '/' first, so it reads those too. */
  function ValueOf(c: char): (v: Option<nat>)
    ensures v.Some? ==> v.value < 64
  {
    if 'A' <= c <= 'Z' then Some(c as int - 65)
    else if 'a' <= c <= 'z' then Some(c as int - 71)
    else if '0' <= c <= '9' then Some(c as int + 4)
    else if c == '-' || c == '+' then Some(62)
    else if c == '_' || c == '/' then Some(63)
    else None
  }

  /** A six-bit digit value. */
  type Sextet = n: int | 0 <= n < 64

  function Digits(v: seq<Sextet>): string {
    seq(|v|, i requires 0 <= i < |v| => Digit(v[i]))
  }

  /** The digit values of a text, if every character is a digit. */
  function Values(text: string): Option<seq<Sextet>> {
    if text == "" then Some([])
    else match (ValueOf(text[0]), Values(text[1..]))
      case (Some(v), Some(rest)) => Some([v] + rest)
      case _ => None
  }

  // Three bytes x, y, z as four six-bit values, and back.
  function Cut0(x: Byte): Sextet { x / 4 }
  function Cut1(x: Byte, y: Byte): Sextet { x % 4 * 16 + y / 16 }
  function Cut2(y: Byte, z: Byte): Sextet { y % 16 * 4 + z / 64 }
  function Cut3(z: Byte): Sextet { z % 64 }
  function Join0(p: Sextet, q: Sextet): Byte { p * 4 + q / 16 }
  function Join1(q: Sextet, r: Sextet): Byte { q % 16 * 16 + r / 4 }
  function Join2(r: Sextet, s: Sextet): Byte { r % 4 * 64 + s }

  /** Bytes cut into six-bit values, the last one filled with zero bits. */
  function Sextets(b: seq<Byte>): seq<Sextet> {
    if |b| == 0 then []
    else if |b| == 1 then [Cut0(b[0]), Cut1(b[0], 0)]
    else if |b| == 2 then [Cut0(b[0]), Cut1(b[0], b[1]), Cut2(b[1], 0)]
    else [Cut0(b[0]), Cut1(b[0], b[1]), Cut2(b[1], b[2]), Cut3(b[2])] + Sextets(b[3..])
  }

  /** Six-bit values joined into bytes; left-over bits are dropped, whatever they are. */
  function Octets(v: seq<Sextet>): seq<Byte> {
    if |v| < 2 then []
    else if |v| == 2 then [Join0(v[0], v[1])]
    else if |v| == 3 then [Join0(v[0], v[1]), Join1(v[1], v[2])]
    else [Join0(v[0], v[1]), Join1(v[1], v[2]), Join2(v[2], v[3])] + Octets(v[4..])
  }

  function Padding(length: nat): string {
    seq((4 - length % 4) % 4, _ => '=')
  }

  function StripPadding(text: string): string {
    if text != "" && text[|text| - 1] == '=' then StripPadding(text[..|text| - 1]) else text
  }

  /** base64url with its trailing padding removed. */
  function EncodeBytes(b: seq<Byte>): string {
    var text := Digits(Sextets(b));
    StripPadding(text + Padding(|text|))
  }

  /** Pads to a multiple of four, then decodes strictly: digits, and at most two '=' at the very end. */
  function DecodeText(text: string): Option<seq<Byte>> {
    var padded := text + Padding(|text|);
    var body := StripPadding(padded);
    if |padded| - |body| > 2 then None
    else match Values(body)
      case None => None
      case Some(v) => Some(Octets(v))
  }

  /** The digits run through A-Z, a-z and 0-9, then '-' and '_'. */
  lemma DigitsRunThroughAlphabet(v: int)
    requires 0 <= v < 63
    ensures Digit(0) == 'A' && Digit(25) == 'Z' && Digit(26) == 'a' && Digit(51) == 'z' && Digit(52) == '0' && Digit(61) == '9'
    ensures Digit(62) == '-' && Digit(63) == '_'
    ensures v !in {25, 51, 61, 62} ==> Digit(v + 1) as int == Digit(v) as int + 1
  {
  }

  /** An element, or zero past the end. */
  function ElementAt(s: seq<int>, i: nat): int {
    if i < |s| then s[i] else 0
  }

  /** The g-th three bytes as a number in base 256, filled up with zeros. */
  function ThreeBytes(b: seq<int>, g: nat): int {
    ElementAt(b, 3 * g) * 65536 + ElementAt(b, 3 * g + 1) * 256 + ElementAt(b, 3 * g + 2)
  }

  /** The g-th four digit values as a number in base 64, filled up with zeros. */
  function FourDigits(v: seq<int>, g: nat): int {
    ElementAt(v, 4 * g) * 262144 + ElementAt(v, 4 * g + 1) * 4096 + ElementAt(v, 4 * g + 2) * 64 + ElementAt(v, 4 * g + 3)
  }

  lemma CutsSpellBytes(x: Byte, y: Byte, z: Byte)
    ensures Cut0(x) * 262144 + Cut1(x, y) * 4096 + Cut2(y, z) * 64 + Cut3(z) == x * 65536 + y * 256 + z
  {
  }

  lemma LeadingFour(p: int, q: int, r: int, s: int, rest: seq<int>)
    ensures FourDigits([p, q, r, s] + rest, 0) == p * 262144 + q * 4096 + r * 64 + s
    ensures FourDigits([p, q, r], 0) == p * 262144 + q * 4096 + r * 64
    ensures FourDigits([p, q], 0) == p * 262144 + q * 4096
  {
  }

  lemma FirstGroup(b: seq<Byte>)
    ensures FourDigits(Sextets(b), 0) == ThreeBytes(b, 0)
  {
    if |b| == 1 {
      LeadingFour(Cut0(b[0]), Cut1(b[0], 0), 0, 0, []);
      CutsSpellBytes(b[0], 0, 0);
    } else if |b| == 2 {
      LeadingFour(Cut0(b[0]), Cut1(b[0], b[1]), Cut2(b[1], 0), 0, []);
      CutsSpellBytes(b[0], b[1], 0);
    } else if |b| > 2 {
      LeadingFour(Cut0(b[0]), Cut1(b[0], b[1]), Cut2(b[1], b[2]), Cut3(b[2]), Sextets(b[3..]));
      CutsSpellBytes(b[0], b[1], b[2]);
    }
  }

  lemma FurtherOn(s: seq<int>, d: nat, i: nat)
    requires d <= |s|
    ensures ElementAt(s[d..], i) == ElementAt(s, i + d)
  {
  }

  lemma ThreeFurtherOn(b: seq<int>, g: nat)
    requires |b| > 2
    ensures ThreeBytes(b[3..], g) == ThreeBytes(b, g + 1)
  {
    FurtherOn(b, 3, 3 * g);
    FurtherOn(b, 3, 3 * g + 1);
    FurtherOn(b, 3, 3 * g + 2);
  }

  lemma FourFurtherOn(v: seq<int>, g: nat)
    requires |v| > 3
    ensures FourDigits(v[4..], g) == FourDigits(v, g + 1)
  {
    FurtherOn(v, 4, 4 * g);
    FurtherOn(v, 4, 4 * g + 1);
    FurtherOn(v, 4, 4 * g + 2);
    FurtherOn(v, 4, 4 * g + 3);
  }

  /** Each three bytes spell the same number as their four digits, so the digits are the bits of the bytes,
      in order, filled up with zeros. */
  lemma {:induction false} SextetsSpellBytes(b: seq<Byte>, g: nat)
    ensures |Sextets(b)| == (8 * |b| + 5) / 6
    ensures FourDigits(Sextets(b), g) == ThreeBytes(b, g)
  {
    FirstGroup(b);
    if |b| > 2 {
      SextetsSpellBytes(b[3..], if g == 0 then 0 else g - 1);
      if g > 0 {
        ThreeFurtherOn(b, g - 1);
        FourFurtherOn(Sextets(b), g - 1);
        assert Sextets(b)[4..] == Sextets(b[3..]);
      }
    }
  }

  lemma {:induction false} OctetsOfSextets(b: seq<Byte>)
    ensures Octets(Sextets(b)) == b
  {
    if |b| == 1 {
      assert b == [b[0]];
    } else if |b| == 2 {
      assert b == [b[0], b[1]];
    } else if |b| > 2 {
      OctetsOfSextets(b[3..]);
      assert b == [b[0], b[1], b[2]] + b[3..];
    }
  }

  lemma {:induction false} ValuesOfDigits(v: seq<Sextet>)
    ensures Values(Digits(v)) == Some(v)
  {
    if v != [] {
      var text := Digits(v);
      assert text[0] == Digit(v[0]);
      assert text[1..] == Digits(v[1..]);
      ValuesOfDigits(v[1..]);
      assert v == [v[0]] + v[1..];
    }
  }

  /** Only the padding is stripped: a digit is never '='. */
  lemma {:induction false} StripsPadding(v: seq<Sextet>, n: nat)
    ensures StripPadding(Digits(v) + seq(n, _ => '=')) == Digits(v)
    decreases n
  {
    var text := Digits(v) + seq(n, _ => '=');
    if n == 0 {
      assert text == Digits(v);
      if v != [] {
      }
    } else {
      StripsPadding(v, n - 1);
      assert text[..|text| - 1] == Digits(v) + seq(n - 1, _ => '=');
    }
  }

  lemma DigitsHaveNoPadding(v: seq<Sextet>)
    ensures '=' !in Digits(v)
  {
    forall i | 0 <= i < |v| ensures Digits(v)[i] != '=' {
    }
  }

  /** The text is the digits of the bytes: as many as their bits need, and no padding. */
  lemma TextIsDigits(b: seq<Byte>)
    ensures EncodeBytes(b) == Digits(Sextets(b)) && |EncodeBytes(b)| == (8 * |b| + 5) / 6
  {
    var v := Sextets(b);
    SextetsSpellBytes(b, 0);
    StripsPadding(v, |Padding(|v|)|);
  }

  /** Decoding undoes encoding, for every byte string, and the text carries no padding. */
  lemma TextRoundTrip(b: seq<Byte>)
    ensures DecodeText(EncodeBytes(b)) == Some(b)
    ensures '=' !in EncodeBytes(b)
    ensures EncodeBytes(b) == "" ==> b == []
  {
    var v := Sextets(b);
    OctetsOfSextets(b);
    ValuesOfDigits(v);
    StripsPadding(v, |Padding(|v|)|);
    DigitsHaveNoPadding(v);
    PaddingIsShort(b);
  }

  /** A group never ends after one digit. */
  lemma {:induction false} GroupsHaveTwoDigits(b: seq<Byte>)
    ensures |Sextets(b)| % 4 != 1
    ensures b != [] ==> Sextets(b) != []
  {
    if |b| > 2 {
      GroupsHaveTwoDigits(b[3..]);
      assert |Sextets(b)| == |Sextets(b[3..])| + 4;
    }
  }

  /** So at most two '=' are ever missing. */
  lemma PaddingIsShort(b: seq<Byte>)
    ensures |Padding(|Sextets(b)|)| <= 2
    ensures b != [] ==> Sextets(b) != []
  {
    GroupsHaveTwoDigits(b);
  }

  // ---- video cursors ---------------------------------------------------------------

  /** A JSON value, as far as cursors look into one. */
  datatype Field = Number(number: int) | Text(text: string) | OtherValue

  type Object = map<string, Field>

  /** The library functions the cursor code calls. `load` gives None for bytes that are not a JSON
      object in UTF-8, `fromIso` for text that is not a time with a time zone. */
  datatype Codec = Codec(
    dump: Object -> seq<Byte>,
    load: seq<Byte> -> Option<Object>,
    iso: int -> string,
    fromIso: string -> Option<int>,
    str: Field -> string)

  ghost predicate Lawful(c: Codec) {
    && (forall o :: c.load(c.dump(o)) == Some(o))
    && (forall o :: c.dump(o) != [])
    && (forall t :: c.fromIso(c.iso(t)) == Some(t))
    && (forall s :: c.str(Text(s)) == s)
  }

  /** What a cursor is bound to. */
  datatype Binding = Binding(scope: string, filter: string, sort: string)

  /** The sort key of the last item of a page, and the time of the first request. */
  datatype VideoCursor = VideoCursor(ranks: seq<int>, id: string, snapshot: int)

  datatype CursorError = InvalidCursor

  const VERSION := 1
  const SOURCE_SORT := "effective_published_desc"
  const EXPLORE_SORT := "effective_published_fetched_desc"
  const EXPLORE_KIND := "explore-video"

  function SourceObject(c: Codec, at: int, id: string, snapshot: int, binding: Binding): Object {
    map[
      "v" := Number(VERSION), "at" := Text(c.iso(at)), "id" := Text(id), "snapshot" := Text(c.iso(snapshot)),
      "scope" := Text(binding.scope), "filter" := Text(binding.filter), "sort" := Text(binding.sort)]
  }

  function ExploreObject(c: Codec, at: int, fetched: int, id: string, snapshot: int, binding: Binding): Object {
    map[
      "v" := Number(VERSION), "kind" := Text(EXPLORE_KIND), "effectiveAt" := Text(c.iso(at)),
      "fetchedAt" := Text(c.iso(fetched)), "id" := Text(id), "snapshot" := Text(c.iso(snapshot)),
      "scope" := Text(binding.scope), "filter" := Text(binding.filter), "sort" := Text(binding.sort)]
  }

  function EncodeSource(c: Codec, at: int, id: string, snapshot: int, binding: Binding): string {
    EncodeBytes(c.dump(SourceObject(c, at, id, snapshot, binding)))
  }

  function EncodeExplore(c: Codec, at: int, fetched: int, id: string, snapshot: int, binding: Binding): string {
    EncodeBytes(c.dump(ExploreObject(c, at, fetched, id, snapshot, binding)))
  }

  predicate Has(o: Object, name: string, value: Field) {
    name in o && o[name] == value
  }

  predicate BoundTo(o: Object, binding: Binding) {
    && Has(o, "scope", Text(binding.scope))
    && Has(o, "filter", Text(binding.filter))
    && Has(o, "sort", Text(binding.sort))
  }

  function TimeField(c: Codec, o: Object, name: string): Option<int> {
    if name in o then c.fromIso(c.str(o[name])) else None
  }

  function IdField(c: Codec, o: Object): Option<string> {
    if "id" in o && c.str(o["id"]) != "" then Some(c.str(o["id"])) else None
  }

  function SourceFields(c: Codec, o: Object, binding: Binding): Option<VideoCursor> {
    if !Has(o, "v", Number(VERSION)) || !BoundTo(o, binding) then None
    else match (TimeField(c, o, "at"), TimeField(c, o, "snapshot"), IdField(c, o))
      case (Some(at), Some(snapshot), Some(id)) => Some(VideoCursor([at], id, snapshot))
      case _ => None
  }

  function ExploreFields(c: Codec, o: Object, binding: Binding): Option<VideoCursor> {
    if !Has(o, "v", Number(VERSION)) || !Has(o, "kind", Text(EXPLORE_KIND)) || !BoundTo(o, binding) then None
    else match (TimeField(c, o, "effectiveAt"), TimeField(c, o, "fetchedAt"), TimeField(c, o, "snapshot"), IdField(c, o))
      case (Some(at), Some(fetched), Some(snapshot), Some(id)) => Some(VideoCursor([at, fetched], id, snapshot))
      case _ => None
  }

  function Parse(c: Codec, text: string): Option<Object> {
    match DecodeText(text)
    case None => None
    case Some(raw) => c.load(raw)
  }

  /** No cursor is the first page; anything else must be a cursor this very listing handed out. */
  function DecodeSource(c: Codec, cursor: Option<string>, binding: Binding): Result<Option<VideoCursor>, CursorError> {
    if cursor.None? || cursor.value == "" then Success(None)
    else match Parse(c, cursor.value)
      case None => Failure(InvalidCursor)
      case Some(o) =>
        var fields := SourceFields(c, o, binding);
        if fields.None? then Failure(InvalidCursor) else Success(fields)
  }

  function DecodeExplore(c: Codec, cursor: Option<string>, binding: Binding): Result<Option<VideoCursor>, CursorError> {
    if cursor.None? || cursor.value == "" then Success(None)
    else match Parse(c, cursor.value)
      case None => Failure(InvalidCursor)
      case Some(o) =>
        var fields := ExploreFields(c, o, binding);
        if fields.None? then Failure(InvalidCursor) else Success(fields)
  }

  lemma ParseMinted(c: Codec, o: Object)
    requires Lawful(c)
    ensures EncodeBytes(c.dump(o)) != "" && Parse(c, EncodeBytes(c.dump(o))) == Some(o)
  {
    TextRoundTrip(c.dump(o));
  }

  /** A minted source cursor opens exactly where it was minted: same scope, filter and sort. */
  lemma SourceCursorRoundTrip(c: Codec, at: int, id: string, snapshot: int, minted: Binding, asked: Binding)
    requires Lawful(c)
    ensures DecodeSource(c, Some(EncodeSource(c, at, id, snapshot, minted)), asked)
            == if id != "" && asked == minted then Success(Some(VideoCursor([at], id, snapshot)))
               else Failure(InvalidCursor)
  {
    var o := SourceObject(c, at, id, snapshot, minted);
    ParseMinted(c, o);
    assert BoundTo(o, asked) <==> asked == minted;
  }

  lemma ExploreCursorRoundTrip(c: Codec, at: int, fetched: int, id: string, snapshot: int, minted: Binding, asked: Binding)
    requires Lawful(c)
    ensures DecodeExplore(c, Some(EncodeExplore(c, at, fetched, id, snapshot, minted)), asked)
            == if id != "" && asked == minted then Success(Some(VideoCursor([at, fetched], id, snapshot)))
               else Failure(InvalidCursor)
  {
    var o := ExploreObject(c, at, fetched, id, snapshot, minted);
    ParseMinted(c, o);
    assert BoundTo(o, asked) <==> asked == minted;
  }

  /** Neither kind of cursor is accepted for the other kind of listing, whatever it is bound to. */
  lemma SourceCursorStaysOut(c: Codec, at: int, id: string, snapshot: int, minted: Binding, asked: Binding)
    requires Lawful(c)
    ensures DecodeExplore(c, Some(EncodeSource(c, at, id, snapshot, minted)), asked) == Failure(InvalidCursor)
  {
    ParseMinted(c, SourceObject(c, at, id, snapshot, minted));
  }

  lemma ExploreCursorStaysOut(c: Codec, at: int, fetched: int, id: string, snapshot: int, minted: Binding, asked: Binding)
    requires Lawful(c)
    ensures DecodeSource(c, Some(EncodeExplore(c, at, fetched, id, snapshot, minted)), asked) == Failure(InvalidCursor)
  {
    ParseMinted(c, ExploreObject(c, at, fetched, id, snapshot, minted));
  }
}
