/** Reading the answer out of a captured response body: one JSON document, or a stream of `data:` lines. */
module CapturedContent {
  import opened Common

  datatype Json =
    | JNull
    | JBool(truth: bool)
    | JNumber(isZero: bool)
    | JString(text: string)
    | JArray(items: seq<Json>)
    | JObject(fields: map<string, Json>)

  predicate Truthy(j: Json) {
    match j
    case JNull => false
    case JBool(truth) => truth
    case JNumber(isZero) => !isZero
    case JString(text) => text != ""
    case JArray(items) => items != []
    case JObject(fields) => fields != map[]
  }

  // One line of an event stream. A payload that is not JSON has no parsed value.
  datatype Line = NotData | Blank | EndMark | Data(parsed: Option<Json>)

  // The captured bytes, decoded: nothing, one document (with its parsed value, if it is JSON), or an event stream.
  datatype Body = Empty | Document(text: string, parsed: Option<Json>) | Stream(lines: seq<Line>)

  // What reading a value of an unexpected shape raises.
  datatype Fault = AttributeError | KeyError | TypeError

  // ---------- Reading, step by step ----------

  // A missing field reads as null; only an object has fields.
  function Get(j: Json, key: string): Result<Json, Fault> {
    if !j.JObject? then Failure(AttributeError)
    else Success(if key in j.fields then j.fields[key] else JNull)
  }

  function Head(j: Json): Result<Json, Fault>
    requires Truthy(j)
  {
    match j
    case JArray(items) => Success(items[0])
    case JString(text) => Success(JString(text[..1]))
    case JObject(_) => Failure(KeyError)
    case _ => Failure(TypeError)
  }

  // The content inside the first choice, under "message" or "delta".
  function ChoiceContent(choices: Json, part: string): Result<Json, Fault>
    requires Truthy(choices)
  {
    match Head(choices)
    case Failure(f) => Failure(f)
    case Success(first) =>
      match Get(first, part)
      case Failure(f) => Failure(f)
      case Success(m) => if Truthy(m) then Get(m, "content") else Success(JNull)
  }

  // What one chunk of a stream adds to the parts.
  function ChunkParts(chunk: Json): Result<seq<Json>, Fault> {
    match Get(chunk, "choices")
    case Failure(f) => Failure(f)
    case Success(choices) =>
      if !Truthy(choices) then Success([])
      else
        match ChoiceContent(choices, "delta")
        case Failure(f) => Failure(f)
        case Success(content) => Success(if Truthy(content) then [content] else [])
  }

  function LineParts(line: Line): Result<seq<Json>, Fault> {
    if line.Data? && line.parsed.Some? then ChunkParts(line.parsed.value) else Success([])
  }

  function StreamParts(lines: seq<Line>): Result<seq<Json>, Fault> {
    if lines == [] then Success([])
    else
      match StreamParts(lines[..|lines| - 1])
      case Failure(f) => Failure(f)
      case Success(parts) =>
        match LineParts(lines[|lines| - 1])
        case Failure(f) => Failure(f)
        case Success(more) => Success(parts + more)
  }

  // Joining takes strings only.
  function Joined(parts: seq<Json>): Result<string, Fault> {
    if parts == [] then Success("")
    else
      match Joined(parts[..|parts| - 1])
      case Failure(f) => Failure(f)
      case Success(text) =>
        var last := parts[|parts| - 1];
        if last.JString? then Success(text + last.text) else Failure(TypeError)
  }

  function TextOrNull(text: string): Json { if text == "" then JNull else JString(text) }

  function Extract(body: Body): Result<Json, Fault> {
    match body
    case Empty => Success(JNull)
    case Document(text, None) => Success(JString(text))
    case Document(text, Some(parsed)) =>
      (match Get(parsed, "choices")
       case Failure(f) => Failure(f)
       case Success(choices) => if Truthy(choices) then ChoiceContent(choices, "message") else Get(parsed, "content"))
    case Stream(lines) =>
      match StreamParts(lines)
      case Failure(f) => Failure(f)
      case Success(parts) =>
        match Joined(parts)
        case Failure(f) => Failure(f)
        case Success(text) => Success(TextOrNull(text))
  }

  /** The response parser, line by line. */
  method ParseResponse(body: Body) returns (r: Result<Json, Fault>)
    ensures r == Extract(body)
  {
    if body.Empty? {
      return Success(JNull);
    }
    if body.Document? {
      if body.parsed.None? {
        return Success(JString(body.text));
      }
      var parsed := body.parsed.value;
      var choices := Get(parsed, "choices");
      if choices.Failure? {
        return choices;
      }
      if Truthy(choices.value) {
        return ChoiceContent(choices.value, "message");
      }
      return Get(parsed, "content");
    }
    var parts := CollectParts(body.lines);
    if parts.Failure? {
      return Failure(parts.error);
    }
    var text := "";
    for i := 0 to |parts.value|
      invariant Joined(parts.value[..i]) == Success(text)
    {
      assert parts.value[..i + 1][..i] == parts.value[..i];
      if !parts.value[i].JString? {
        JoinFails(parts.value, i);
        return Failure(TypeError);
      }
      text := text + parts.value[i].text;
    }
    assert parts.value[..|parts.value|] == parts.value;
    return Success(TextOrNull(text));
  }

  lemma {:induction false} JoinFails(parts: seq<Json>, i: nat)
    requires i < |parts| && !parts[i].JString?
    ensures Joined(parts) == Failure(TypeError)
  {
    var n := |parts| - 1;
    if i < n {
      JoinFails(parts[..n], i);
    } else {
      JoinFault(parts[..n]);
    }
  }

  lemma {:induction false} JoinFault(parts: seq<Json>)
    ensures Joined(parts).Failure? ==> Joined(parts) == Failure(TypeError)
  {
    if parts != [] {
      JoinFault(parts[..|parts| - 1]);
    }
  }

  method CollectParts(lines: seq<Line>) returns (r: Result<seq<Json>, Fault>)
    ensures r == StreamParts(lines)
  {
    var parts: seq<Json> := [];
    for i := 0 to |lines|
      invariant StreamParts(lines[..i]) == Success(parts)
    {
      assert lines[..i + 1][..i] == lines[..i];
      assert parts + [] == parts;
      match lines[i] {
        case NotData =>
        case Blank =>
        case EndMark =>
        case Data(None) =>
        case Data(Some(chunk)) =>
          var choices := Get(chunk, "choices");
          if choices.Failure? {
            PartsFail(lines, i);
            return Failure(choices.error);
          }
          if Truthy(choices.value) {
            var content := ChoiceContent(choices.value, "delta");
            if content.Failure? {
              PartsFail(lines, i);
              return Failure(content.error);
            }
            if Truthy(content.value) {
              parts := parts + [content.value];
            }
          }
      }
    }
    assert lines[..|lines|] == lines;
    return Success(parts);
  }

  // The first line that can not be read decides.
  lemma {:induction false} PartsFail(lines: seq<Line>, i: nat)
    requires i < |lines| && StreamParts(lines[..i]).Success? && LineParts(lines[i]).Failure?
    ensures StreamParts(lines) == Failure(LineParts(lines[i]).error)
  {
    var n := |lines| - 1;
    assert i < n ==> lines[..n][..i] == lines[..i];
    if i < n {
      PartsFail(lines[..n], i);
    }
  }

  // ---------- When reading raises ----------

  function Field(j: Json, key: string): Json {
    if j.JObject? && key in j.fields then j.fields[key] else JNull
  }

  // A non-empty list whose first element is an object, and what that holds under the part is an object or nothing.
  predicate ReadableChoices(choices: Json, part: string) {
    && choices.JArray? && choices.items != [] && choices.items[0].JObject?
    && (Truthy(Field(choices.items[0], part)) ==> Field(choices.items[0], part).JObject?)
  }

  // An object whose choices, unless they are missing or empty, can be read.
  predicate Readable(reply: Json, part: string) {
    reply.JObject? && (Truthy(Field(reply, "choices")) ==> ReadableChoices(Field(reply, "choices"), part))
  }

  // The content of the first choice of a readable reply.
  function Piece(reply: Json, part: string): Json {
    var choices := Field(reply, "choices");
    if choices.JArray? && choices.items != [] then Field(Field(choices.items[0], part), "content") else JNull
  }

  predicate ReadableLine(line: Line) {
    line.Data? && line.parsed.Some? ==>
      && Readable(line.parsed.value, "delta")
      && (Truthy(Piece(line.parsed.value, "delta")) ==> Piece(line.parsed.value, "delta").JString?)
  }

  // The captured bodies that make the parser raise.
  ghost predicate Raises(body: Body) {
    match body
    case Empty => false
    case Document(_, parsed) => parsed.Some? && !Readable(parsed.value, "message")
    case Stream(lines) => exists i :: 0 <= i < |lines| && !ReadableLine(lines[i])
  }

  lemma ChoicesReadIff(choices: Json, part: string)
    requires Truthy(choices)
    ensures ChoiceContent(choices, part).Success? <==> ReadableChoices(choices, part)
    ensures ReadableChoices(choices, part) ==>
              ChoiceContent(choices, part).value == Field(Field(choices.items[0], part), "content")
  {
  }

  lemma ChunkReadIff(chunk: Json)
    ensures ChunkParts(chunk).Success? <==> Readable(chunk, "delta")
    ensures Readable(chunk, "delta") ==>
              ChunkParts(chunk).value == if Truthy(Piece(chunk, "delta")) then [Piece(chunk, "delta")] else []
  {
    var choices := Field(chunk, "choices");
    if chunk.JObject? && Truthy(choices) {
      ChoicesReadIff(choices, "delta");
    }
  }

  ghost predicate AllStrings(parts: seq<Json>) {
    forall k :: 0 <= k < |parts| ==> parts[k].JString?
  }

  lemma {:induction false} JoinIff(parts: seq<Json>)
    ensures Joined(parts).Success? <==> AllStrings(parts)
  {
    if parts == [] {
    } else {
      var n := |parts| - 1;
      JoinIff(parts[..n]);
    }
  }

  ghost predicate ReadableLines(lines: seq<Line>) {
    forall i :: 0 <= i < |lines| ==> ReadableLine(lines[i])
  }

  lemma LineReadIff(line: Line)
    ensures ReadableLine(line) <==> LineParts(line).Success? && AllStrings(LineParts(line).value)
  {
    if line.Data? && line.parsed.Some? {
      ChunkReadIff(line.parsed.value);
      var piece := Piece(line.parsed.value, "delta");
      assert AllStrings([piece]) <==> piece.JString? by { assert [piece][0] == piece; }
    }
  }

  lemma {:induction false} LinesReadIff(lines: seq<Line>)
    ensures ReadableLines(lines) <==> StreamParts(lines).Success? && AllStrings(StreamParts(lines).value)
  {
    if lines == [] {
    } else {
      var n := |lines| - 1;
      LinesReadIff(lines[..n]);
      LineReadIff(lines[n]);
      assert ReadableLines(lines) <==> ReadableLines(lines[..n]) && ReadableLine(lines[n]);
      if StreamParts(lines).Success? {
        StringsSplit(StreamParts(lines[..n]).value, LineParts(lines[n]).value);
      }
    }
  }

  lemma StringsSplit(a: seq<Json>, b: seq<Json>)
    ensures AllStrings(a + b) <==> AllStrings(a) && AllStrings(b)
  {
    if AllStrings(a + b) {
      assert forall k :: 0 <= k < |a| ==> a[k] == (a + b)[k];
      assert forall k :: 0 <= k < |b| ==> b[k] == (a + b)[|a| + k];
    }
  }

  /**
   The parser raises iff the body is JSON of a shape it can not read: not an object; choices that are neither
   empty nor a list led by an object; a message or delta that is neither empty nor an object; a streamed piece
   that is neither empty nor a string.
  */
  lemma ExtractFailsIff(body: Body)
    ensures Extract(body).Failure? <==> Raises(body)
  {
    match body
    case Empty =>
    case Document(_, parsed) =>
      if parsed.Some? && parsed.value.JObject? && Truthy(Field(parsed.value, "choices")) {
        ChoicesReadIff(Field(parsed.value, "choices"), "message");
      }
    case Stream(lines) =>
      LinesReadIff(lines);
      if StreamParts(lines).Success? {
        JoinIff(StreamParts(lines).value);
      }
  }

  /** A readable document gives the content of its first choice, or its own content when it has no choices. */
  lemma DocumentReads(text: string, reply: Json)
    requires Readable(reply, "message")
    ensures Extract(Document(text, Some(reply))) ==
            Success(if Truthy(Field(reply, "choices")) then Piece(reply, "message") else Field(reply, "content"))
  {
    if Truthy(Field(reply, "choices")) {
      ChoicesReadIff(Field(reply, "choices"), "message");
    }
  }

  /** What counts as nothing: null, false, zero, and whatever is empty. */
  lemma FalsyValues(j: Json)
    ensures !Truthy(j) <==>
            j == JNull || j == JBool(false) || j == JNumber(true) || j == JString("") || j == JArray([]) || j == JObject(map[])
  {
  }

  /** No body reads as nothing, and a body that is not JSON as its own text. */
  lemma PlainBodies(text: string)
    ensures Extract(Empty) == Success(JNull) && Extract(Document(text, None)) == Success(JString(text))
  {
  }

  /** What an unreadable document raises: a missing key, an item of something that has none, or else a missing attribute. */
  lemma DocumentFaults(text: string, reply: Json)
    requires Extract(Document(text, Some(reply))).Failure?
    ensures var choices := Field(reply, "choices");
            Extract(Document(text, Some(reply))).error ==
            if reply.JObject? && choices.JObject? then KeyError
            else if reply.JObject? && (choices.JBool? || choices.JNumber?) then TypeError
            else AttributeError
  {
  }

  // The pieces of a stream's chunks, one after another.
  function PiecesText(lines: seq<Line>): string {
    if lines == [] then ""
    else
      var line := lines[|lines| - 1];
      PiecesText(lines[..|lines| - 1])
      + if line.Data? && line.parsed.Some? && Piece(line.parsed.value, "delta").JString?
        then Piece(line.parsed.value, "delta").text else ""
  }

  lemma {:induction false} JoinedOfConcat(a: seq<Json>, b: seq<Json>)
    requires Joined(a).Success? && AllStrings(b) && |b| <= 1
    ensures Joined(a + b) == Success(Joined(a).value + if b == [] then "" else b[0].text)
  {
    if b == [] {
      assert a + b == a && Joined(a).value + "" == Joined(a).value;
    } else {
      assert (a + b)[..|a|] == a;
    }
  }

  lemma {:induction false} LinesJoined(lines: seq<Line>)
    requires ReadableLines(lines)
    ensures StreamParts(lines).Success? && Joined(StreamParts(lines).value) == Success(PiecesText(lines))
  {
    if lines == [] {
    } else {
      var n := |lines| - 1;
      LinesJoined(lines[..n]);
      assert ReadableLine(lines[n]);
      LineReadIff(lines[n]);
      if lines[n].Data? && lines[n].parsed.Some? {
        ChunkReadIff(lines[n].parsed.value);
      }
      JoinedOfConcat(StreamParts(lines[..n]).value, LineParts(lines[n]).value);
    }
  }

  /** A readable stream gives the text of its chunks' pieces, one after another, or nothing when there is none. */
  lemma {:induction false} StreamReads(lines: seq<Line>)
    requires ReadableLines(lines)
    ensures Extract(Stream(lines)) == Success(if PiecesText(lines) == "" then JNull else JString(PiecesText(lines)))
  {
    LinesJoined(lines);
  }

  // ---------- A streamed answer is put back together ----------

  // A server that streams an answer piece by piece, and then says it is done.
  function Chunk(piece: string): Json {
    JObject(map["choices" := JArray([JObject(map["delta" := JObject(map["content" := JString(piece)])])])])
  }

  function Streamed(pieces: seq<string>): seq<Line> {
    if pieces == [] then []
    else Streamed(pieces[..|pieces| - 1]) + [Data(Some(Chunk(pieces[|pieces| - 1]))), Blank]
  }

  function Flattened(pieces: seq<string>): string {
    if pieces == [] then "" else Flattened(pieces[..|pieces| - 1]) + pieces[|pieces| - 1]
  }

  lemma PiecesOfMore(lines: seq<Line>, line: Line)
    requires StreamParts(lines).Success? && LineParts(line).Success?
    ensures StreamParts(lines + [line]) == Success(StreamParts(lines).value + LineParts(line).value)
  {
    assert (lines + [line])[..|lines|] == lines;
  }

  lemma JoinedOfMore(parts: seq<Json>, text: string)
    requires Joined(parts).Success?
    ensures Joined(parts + [JString(text)]) == Success(Joined(parts).value + text)
  {
    assert (parts + [JString(text)])[..|parts|] == parts;
  }

  lemma ChunkPiece(piece: string)
    ensures LineParts(Data(Some(Chunk(piece)))) == Success(if piece == "" then [] else [JString(piece)])
  {
    ChunkReadIff(Chunk(piece));
    var choice := JObject(map["delta" := JObject(map["content" := JString(piece)])]);
    assert Field(Chunk(piece), "choices") == JArray([choice]);
    assert Field(choice, "delta") == JObject(map["content" := JString(piece)]);
  }

  lemma LinesJoin(lines: seq<Line>, text: string, line: Line, piece: string)
    requires StreamParts(lines).Success? && Joined(StreamParts(lines).value) == Success(text)
    requires LineParts(line) == Success(if piece == "" then [] else [JString(piece)])
    ensures StreamParts(lines + [line]).Success?
    ensures Joined(StreamParts(lines + [line]).value) == Success(text + piece)
  {
    PiecesOfMore(lines, line);
    var parts := StreamParts(lines).value;
    if piece == "" {
      assert parts + [] == parts && text + piece == text;
    } else {
      JoinedOfMore(parts, piece);
    }
  }

  lemma {:induction false} StreamedParts(pieces: seq<string>)
    ensures StreamParts(Streamed(pieces)).Success?
    ensures Joined(StreamParts(Streamed(pieces)).value) == Success(Flattened(pieces))
  {
    if pieces == [] {
    } else {
      var n := |pieces| - 1;
      var before, line := Streamed(pieces[..n]), Data(Some(Chunk(pieces[n])));
      StreamedParts(pieces[..n]);
      ChunkPiece(pieces[n]);
      LinesJoin(before, Flattened(pieces[..n]), line, pieces[n]);
      LinesJoin(before + [line], Flattened(pieces), Blank, "");
      assert Streamed(pieces) == before + [line] + [Blank];
      assert Flattened(pieces) + "" == Flattened(pieces);
    }
  }

  /** Whatever pieces an answer is streamed in, what is read back is the whole answer. */
  lemma {:induction false} StreamReadsBack(pieces: seq<string>)
    ensures Extract(Stream(Streamed(pieces) + [EndMark])) ==
            Success(if Flattened(pieces) == "" then JNull else JString(Flattened(pieces)))
  {
    StreamedParts(pieces);
    PiecesOfMore(Streamed(pieces), EndMark);
    assert StreamParts(Streamed(pieces)).value + [] == StreamParts(Streamed(pieces)).value;
  }
}
