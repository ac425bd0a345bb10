/**
 Finding a JSON object inside a completion's free text. The scanner is proved against the printed
 form: whatever object is printed, with any choice of escapes and white space the grammar allows,
 the scanner returns exactly its text, however deep it nests and whatever its strings contain.
 */
module JsonScan {
  import opened Wrappers

  // ----- trimming -----

  /** White space and line terminators, which `trim` removes (section 22.1.3.32.1 of ECMA-262, 14th edition). */
  predicate Blank(c: char) {
    || c == '\t' || c == '\n' || c == '\r' || c == ' ' || c == '\U{000B}' || c == '\U{000C}'
    || c == '\U{00A0}' || c == '\U{FEFF}' || c == '\U{1680}' || '\U{2000}' <= c <= '\U{200A}'
    || c == '\U{2028}' || c == '\U{2029}' || c == '\U{202F}' || c == '\U{205F}' || c == '\U{3000}'
  }

  predicate AllBlank(s: string) { forall i :: 0 <= i < |s| ==> Blank(s[i]) }

  function TrimStart(s: string): string { if s != "" && Blank(s[0]) then TrimStart(s[1..]) else s }

  function TrimEnd(s: string): string { if s != "" && Blank(s[|s| - 1]) then TrimEnd(s[..|s| - 1]) else s }

  function Trim(s: string): string { TrimEnd(TrimStart(s)) }

  // ----- the scanner -----

  datatype State = State(depth: int, inString: bool, escaped: bool)

  const OUTSIDE := State(0, false, false)

  function Next(st: State, ch: char): State {
    if st.inString then
      if st.escaped then st.(escaped := false)
      else if ch == '\\' then st.(escaped := true)
      else if ch == '"' then st.(inString := false)
      else st
    else if ch == '"' then st.(inString := true)
    else if ch == '{' then st.(depth := st.depth + 1)
    else if ch == '}' then st.(depth := st.depth - 1)
    else st
  }

  /** The character that completes the object. */
  predicate Closes(st: State, ch: char) { !st.inString && ch == '}' && st.depth == 1 }

  function CloseAt(st: State, s: string): Option<nat>
    decreases |s|
  {
    if s == "" then None
    else if Closes(st, s[0]) then Some(0)
    else
      var rest := CloseAt(Next(st, s[0]), s[1..]);
      if rest.Some? then Some(rest.value + 1) else None
  }

  function IndexOf(s: string, ch: char): Option<nat> {
    if s == "" then None
    else if s[0] == ch then Some(0)
    else
      var rest := IndexOf(s[1..], ch);
      if rest.Some? then Some(rest.value + 1) else None
  }

  function Extracted(text: string): string {
    var trimmed := Trim(text);
    var start := IndexOf(trimmed, '{');
    if start.None? || start.value == 0 then trimmed
    else
      IndexOfAt(trimmed, '{');
      var end := CloseAt(OUTSIDE, trimmed[start.value..]);
      CloseAtWithin(OUTSIDE, trimmed[start.value..]);
      if end.None? then trimmed else trimmed[start.value..start.value + end.value + 1]
  }

  lemma {:induction false} IndexOfAt(s: string, ch: char)
    ensures IndexOf(s, ch).Some? ==> IndexOf(s, ch).value < |s| && s[IndexOf(s, ch).value] == ch
    decreases |s|
  {
    if s != "" && s[0] != ch { IndexOfAt(s[1..], ch); }
  }

  lemma {:induction false} CloseAtWithin(st: State, s: string)
    ensures CloseAt(st, s).Some? ==> CloseAt(st, s).value < |s|
    decreases |s|
  {
    if s != "" && !Closes(st, s[0]) { CloseAtWithin(Next(st, s[0]), s[1..]); }
  }

  function Shifted(n: Option<nat>, k: nat): Option<nat> { if n.Some? then Some(n.value + k) else None }

  lemma {:induction false} CloseAtFrom(st: State, s: string, i: nat)
    requires i < |s|
    ensures CloseAt(st, s[i..]) == if Closes(st, s[i]) then Some(0) else Shifted(CloseAt(Next(st, s[i]), s[i + 1..]), 1)
  {
    assert s[i..][0] == s[i] && s[i..][1..] == s[i + 1..];
  }

  lemma {:induction false} ScanOn(trimmed: string, start: nat, i: nat, st: State)
    requires start <= i < |trimmed|
    requires CloseAt(OUTSIDE, trimmed[start..]) == Shifted(CloseAt(st, trimmed[i..]), i - start)
    ensures CloseAt(OUTSIDE, trimmed[start..])
            == if Closes(st, trimmed[i]) then Some(i - start)
               else Shifted(CloseAt(Next(st, trimmed[i]), trimmed[i + 1..]), i + 1 - start)
  {
    CloseAtFrom(st, trimmed, i);
  }

  /** The scan itself: the end of the object that begins at `start`, if it ends. */
  method ScanObject(trimmed: string, start: nat) returns (end: Option<nat>)
    requires start <= |trimmed|
    ensures end == Shifted(CloseAt(OUTSIDE, trimmed[start..]), start)
  {
    var depth, inString, escaped := 0, false, false;
    for i := start to |trimmed|
      invariant CloseAt(OUTSIDE, trimmed[start..])
             == Shifted(CloseAt(State(depth, inString, escaped), trimmed[i..]), i - start)
    {
      var ch := trimmed[i];
      ScanOn(trimmed, start, i, State(depth, inString, escaped));
      if inString {
        if escaped {
          escaped := false;
        } else if ch == '\\' {
          escaped := true;
        } else if ch == '"' {
          inString := false;
        }
        continue;
      }
      if ch == '"' {
        inString := true;
      } else if ch == '{' {
        depth := depth + 1;
      } else if ch == '}' {
        depth := depth - 1;
        if depth == 0 { return Some(i); }
      }
    }
    return None;
  }

  /** `extractJsonObject`. */
  method ExtractJsonObject(text: string) returns (r: string)
    ensures r == Extracted(text)
  {
    var trimmed := Trim(text);
    if |trimmed| > 0 && trimmed[0] == '{' { return trimmed; }
    IndexOfAt(trimmed, '{');
    var found := IndexOf(trimmed, '{');
    if found.None? { return trimmed; }
    var start := found.value;
    var end := ScanObject(trimmed, start);
    CloseAtWithin(OUTSIDE, trimmed[start..]);
    if end.Some? { return trimmed[start..end.value + 1]; }
    return trimmed;
  }

  // ----- JSON texts -----

  /** One character of a string, in any of the ways it may be written (section 7 of RFC 8259). */
  datatype Glyph = Plain(c: char) | Short(c: char) | Hex(digits: string)

  /** A JSON text as written: numbers and literals, strings, arrays and objects, with the white space between them. */
  datatype Json = Word(text: string) | Text(glyphs: seq<Glyph>) | Array(items: Items) | Object(members: Members)

  datatype Items = LastItem(space: string) | Item(before: string, value: Json, after: string, rest: Items)

  datatype Members =
    | LastMember(space: string)
    | Member(before: string, key: seq<Glyph>, colon: string, space: string, value: Json, after: string, rest: Members)

  predicate Space(s: string) { forall i :: 0 <= i < |s| ==> s[i] == ' ' || s[i] == '\t' || s[i] == '\n' || s[i] == '\r' }

  predicate HexDigit(c: char) { '0' <= c <= '9' || 'a' <= c <= 'f' || 'A' <= c <= 'F' }

  /** Unescaped: anything but a quotation mark, a reverse solidus or a control character. */
  predicate ValidGlyph(g: Glyph) {
    match g
    case Plain(c) => c != '"' && c != '\\' && c >= ' '
    case Short(c) => c in "\"\\/bfnrt"
    case Hex(digits) => |digits| == 4 && forall i :: 0 <= i < 4 ==> HexDigit(digits[i])
  }

  predicate ValidGlyphs(gs: seq<Glyph>) { forall i :: 0 <= i < |gs| ==> ValidGlyph(gs[i]) }

  predicate WordChar(c: char) { '0' <= c <= '9' || 'a' <= c <= 'z' || c in "+-.E" }

  predicate Valid(v: Json) {
    match v
    case Word(text) => text != "" && forall i :: 0 <= i < |text| ==> WordChar(text[i])
    case Text(gs) => ValidGlyphs(gs)
    case Array(items) => ValidItems(items)
    case Object(ms) => ValidMembers(ms)
  }

  predicate ValidItems(items: Items) {
    match items
    case LastItem(space) => Space(space)
    case Item(before, value, after, rest) => Space(before) && Valid(value) && Space(after) && ValidItems(rest)
  }

  predicate ValidMembers(ms: Members) {
    match ms
    case LastMember(space) => Space(space)
    case Member(before, key, colon, space, value, after, rest) =>
      Space(before) && ValidGlyphs(key) && Space(colon) && Space(space) && Valid(value) && Space(after) && ValidMembers(rest)
  }

  function PrintGlyph(g: Glyph): string {
    match g
    case Plain(c) => [c]
    case Short(c) => ['\\', c]
    case Hex(digits) => ['\\', 'u'] + digits
  }

  function PrintGlyphs(gs: seq<Glyph>): string {
    if gs == [] then "" else PrintGlyph(gs[0]) + PrintGlyphs(gs[1..])
  }

  function Quoted(gs: seq<Glyph>): string { ['"'] + PrintGlyphs(gs) + ['"'] }

  function Print(v: Json): string {
    match v
    case Word(text) => text
    case Text(gs) => Quoted(gs)
    case Array(items) => ['['] + PrintItems(items) + [']']
    case Object(ms) => ['{'] + PrintMembers(ms) + ['}']
  }

  function PrintItems(items: Items): string {
    match items
    case LastItem(space) => space
    case Item(before, value, after, rest) =>
      before + Print(value) + after + (if rest.Item? then [','] else []) + PrintItems(rest)
  }

  function PrintMembers(ms: Members): string {
    match ms
    case LastMember(space) => space
    case Member(before, key, colon, space, value, after, rest) =>
      before + Quoted(key) + colon + [':'] + space + Print(value) + after
      + (if rest.Member? then [','] else []) + PrintMembers(rest)
  }

  // ----- scanning what was printed -----

  /** From `st` the scanner reads all of `s` without finding the end, and stands in `st'`. */
  predicate Reads(st: State, s: string, st': State)
    decreases |s|
  {
    if s == "" then st == st' else !Closes(st, s[0]) && Reads(Next(st, s[0]), s[1..], st')
  }

  lemma {:induction false} ReadsThen(st: State, s: string, st': State, t: string, st'': State)
    requires Reads(st, s, st') && Reads(st', t, st'')
    ensures Reads(st, s + t, st'')
    decreases |s|
  {
    if s == "" {
      assert s + t == t;
    } else {
      assert (s + t)[1..] == s[1..] + t;
      ReadsThen(Next(st, s[0]), s[1..], st', t, st'');
    }
  }

  lemma {:induction false} CloseAfter(st: State, s: string, st': State, t: string)
    requires Reads(st, s, st')
    ensures CloseAt(st, s + t) == Shifted(CloseAt(st', t), |s|)
    decreases |s|
  {
    if s == "" {
      assert s + t == t;
    } else {
      assert (s + t)[1..] == s[1..] + t;
      CloseAfter(Next(st, s[0]), s[1..], st', t);
    }
  }

  /** Between values, inside at least one object. */
  predicate Between(st: State) { st.depth >= 1 && !st.inString && !st.escaped }

  predicate Inert(c: char) { c != '"' && c != '{' && c != '}' }

  lemma {:induction false} ReadsInert(st: State, s: string)
    requires !st.inString && forall i :: 0 <= i < |s| ==> Inert(s[i])
    ensures Reads(st, s, st)
    decreases |s|
  {
    if s != "" { ReadsInert(st, s[1..]); }
  }

  lemma {:induction false} ReadsOne(st: State, c: char)
    requires !Closes(st, c)
    ensures Reads(st, [c], Next(st, c))
  {
    assert [c][1..] == "";
  }

  lemma {:induction false} ReadsWithinString(st: State, s: string)
    requires st.inString && !st.escaped && forall i :: 0 <= i < |s| ==> s[i] != '"' && s[i] != '\\'
    ensures Reads(st, s, st)
    decreases |s|
  {
    if s != "" { ReadsWithinString(st, s[1..]); }
  }

  /** An escape, whatever it escapes, does not end the string. */
  lemma {:induction false} ReadsEscape(st: State, c: char)
    requires st.inString && !st.escaped
    ensures Reads(st, ['\\', c], st)
  {
    var mid := st.(escaped := true);
    ReadsOne(st, '\\');
    ReadsOne(mid, c);
    ReadsThen(st, ['\\'], mid, [c], st);
    assert ['\\'] + [c] == ['\\', c];
  }

  lemma {:induction false} ReadsGlyph(st: State, g: Glyph)
    requires ValidGlyph(g) && st.inString && !st.escaped
    ensures Reads(st, PrintGlyph(g), st)
  {
    match g
    case Plain(c) => ReadsOne(st, c);
    case Short(c) => ReadsEscape(st, c);
    case Hex(digits) =>
      ReadsEscape(st, 'u');
      ReadsWithinString(st, digits);
      ReadsThen(st, ['\\', 'u'], st, digits, st);
  }

  lemma {:induction false} ReadsGlyphs(st: State, gs: seq<Glyph>)
    requires ValidGlyphs(gs) && st.inString && !st.escaped
    ensures Reads(st, PrintGlyphs(gs), st)
    decreases |gs|
  {
    if gs != [] {
      ReadsGlyph(st, gs[0]);
      ReadsGlyphs(st, gs[1..]);
      ReadsThen(st, PrintGlyph(gs[0]), st, PrintGlyphs(gs[1..]), st);
    }
  }

  /** A printed string is read as a whole, braces and quotes in it notwithstanding. */
  lemma {:induction false} ReadsQuoted(st: State, gs: seq<Glyph>)
    requires ValidGlyphs(gs) && !st.inString && !st.escaped
    ensures Reads(st, Quoted(gs), st)
  {
    var inside := st.(inString := true);
    ReadsOne(st, '"');
    ReadsGlyphs(inside, gs);
    ReadsThen(st, ['"'], inside, PrintGlyphs(gs), inside);
    ReadsOne(inside, '"');
    ReadsThen(st, ['"'] + PrintGlyphs(gs), inside, ['"'], st);
  }

  lemma {:induction false} ReadsThree(st: State, r: string, s: string, t: string)
    requires Reads(st, r, st) && Reads(st, s, st) && Reads(st, t, st)
    ensures Reads(st, r + s + t, st)
  {
    ReadsThen(st, r, st, s, st);
    ReadsThen(st, r + s, st, t, st);
  }

  /** Any value inside an object is read as a whole, and leaves the depth as it was. */
  lemma {:induction false} ReadsValue(st: State, v: Json)
    requires Valid(v) && Between(st)
    ensures Reads(st, Print(v), st)
    decreases v
  {
    match v
    case Word(text) => ReadsInert(st, text);
    case Text(gs) => ReadsQuoted(st, gs);
    case Array(items) =>
      ReadsOne(st, '[');
      ReadsItems(st, items);
      ReadsOne(st, ']');
      ReadsThree(st, ['['], PrintItems(items), [']']);
    case Object(ms) =>
      var inner := st.(depth := st.depth + 1);
      ReadsOne(st, '{');
      ReadsMembers(inner, ms);
      ReadsThen(st, ['{'], inner, PrintMembers(ms), inner);
      ReadsOne(inner, '}');
      ReadsThen(st, ['{'] + PrintMembers(ms), inner, ['}'], st);
  }

  lemma {:induction false} ReadsItems(st: State, items: Items)
    requires ValidItems(items) && Between(st)
    ensures Reads(st, PrintItems(items), st)
    decreases items
  {
    match items
    case LastItem(space) => ReadsInert(st, space);
    case Item(before, value, after, rest) =>
      var comma := if rest.Item? then [','] else [];
      ReadsInert(st, before);
      ReadsValue(st, value);
      ReadsInert(st, after);
      ReadsThree(st, before, Print(value), after);
      ReadsInert(st, comma);
      ReadsItems(st, rest);
      ReadsThree(st, before + Print(value) + after, comma, PrintItems(rest));
  }

  lemma {:induction false} ReadsMembers(st: State, ms: Members)
    requires ValidMembers(ms) && Between(st)
    ensures Reads(st, PrintMembers(ms), st)
    decreases ms
  {
    match ms
    case LastMember(space) => ReadsInert(st, space);
    case Member(before, key, colon, space, value, after, rest) =>
      var comma := if rest.Member? then [','] else [];
      ReadsInert(st, before);
      ReadsQuoted(st, key);
      ReadsInert(st, colon);
      ReadsThree(st, before, Quoted(key), colon);
      ReadsInert(st, [':']);
      ReadsInert(st, space);
      ReadsThree(st, before + Quoted(key) + colon, [':'], space);
      ReadsValue(st, value);
      ReadsInert(st, after);
      ReadsThree(st, before + Quoted(key) + colon + [':'] + space, Print(value), after);
      ReadsInert(st, comma);
      ReadsMembers(st, rest);
      ReadsThree(st, before + Quoted(key) + colon + [':'] + space + Print(value) + after, comma, PrintMembers(rest));
  }

  /** From an object's first brace the scanner finds the end of that object, whatever follows. */
  lemma {:induction false} ClosesAtEnd(ms: Members, tail: string)
    requires ValidMembers(ms)
    ensures |Print(Object(ms))| > 0
    ensures CloseAt(OUTSIDE, Print(Object(ms)) + tail) == Some(|Print(Object(ms))| - 1)
  {
    var inner := State(1, false, false);
    ReadsOne(OUTSIDE, '{');
    ReadsMembers(inner, ms);
    ReadsThen(OUTSIDE, ['{'], inner, PrintMembers(ms), inner);
    var start := ['{'] + PrintMembers(ms);
    assert CloseAt(inner, ['}'] + tail) == Some(0);
    CloseAfter(OUTSIDE, start, inner, ['}'] + tail);
    assert Print(Object(ms)) + tail == start + (['}'] + tail);
  }

  // ----- trimming around it -----

  lemma {:induction false} TrimStartParts(s: string, t: string)
    ensures AllBlank(s) ==> TrimStart(s + t) == TrimStart(t)
    ensures !AllBlank(s) ==> TrimStart(s + t) == TrimStart(s) + t && TrimStart(s) != "" && !Blank(TrimStart(s)[0])
    ensures forall c :: c in TrimStart(s) ==> c in s
    decreases |s|
  {
    if s == "" {
      assert s + t == t;
    } else {
      assert (s + t)[1..] == s[1..] + t && s == [s[0]] + s[1..];
      if Blank(s[0]) { TrimStartParts(s[1..], t); }
    }
  }

  lemma {:induction false} TrimEndParts(s: string, t: string)
    requires s != "" && !Blank(s[|s| - 1])
    ensures TrimEnd(s + t) == s + TrimEnd(t)
    decreases |t|
  {
    if t == "" {
      assert s + t == s;
    } else {
      var n := |t| - 1;
      assert (s + t)[..|s| + n] == s + t[..n];
      if Blank(t[n]) { TrimEndParts(s, t[..n]); }
    }
  }

  lemma {:induction false} TrimEndEmpty(t: string)
    ensures TrimEnd(t) == "" <==> AllBlank(t)
    decreases |t|
  {
    if t != "" {
      assert t == t[..|t| - 1] + [t[|t| - 1]];
      if Blank(t[|t| - 1]) { TrimEndEmpty(t[..|t| - 1]); }
    }
  }

  lemma {:induction false} IndexOfFirst(s: string, ch: char, t: string)
    requires ch !in s && t != "" && t[0] == ch
    ensures IndexOf(s + t, ch) == Some(|s|)
    decreases |s|
  {
    if s == "" {
      assert s + t == t;
    } else {
      assert (s + t)[1..] == s[1..] + t;
      IndexOfFirst(s[1..], ch, t);
    }
  }

  /** What is left of a text that holds a printed object, once trimmed. */
  lemma {:induction false} TrimmedAround(prose: string, ms: Members, tail: string) returns (lead: string)
    requires '{' !in prose
    ensures Trim(prose + Print(Object(ms)) + tail) == lead + Print(Object(ms)) + TrimEnd(tail)
    ensures '{' !in lead && (lead == "" <==> AllBlank(prose))
  {
    var body := Print(Object(ms));
    assert prose + body + tail == prose + (body + tail);
    TrimStartParts(prose, body + tail);
    lead := if AllBlank(prose) then "" else TrimStart(prose);
    assert TrimStart(prose + body + tail) == lead + body + tail by {
      assert (body + tail)[0] == '{';
      assert "" + body + tail == body + tail;
      assert lead + (body + tail) == lead + body + tail;
    }
    assert (lead + body)[|lead + body| - 1] == '}';
    TrimEndParts(lead + body, tail);
  }

  /**
   The scanner inverts printing: for any object, any prose before it without a brace, and any tail, it
   returns exactly the printed object if and only if the prose is not blank or the tail is. (A text
   that begins with a brace is returned as it is, tail and all.)
   */
  lemma {:induction false} ExtractsPrintedIff(prose: string, ms: Members, tail: string)
    requires ValidMembers(ms) && '{' !in prose
    ensures Extracted(prose + Print(Object(ms)) + tail) == Print(Object(ms)) <==> !AllBlank(prose) || AllBlank(tail)
  {
    var body := Print(Object(ms));
    var text := prose + body + tail;
    var lead := TrimmedAround(prose, ms, tail);
    var trimmed := lead + body + TrimEnd(tail);
    assert trimmed == lead + (body + TrimEnd(tail));
    IndexOfFirst(lead, '{', body + TrimEnd(tail));
    if lead == "" {
      TrimEndEmpty(tail);
      assert trimmed == body + TrimEnd(tail);
      assert |trimmed| == |body| + |TrimEnd(tail)|;
      assert AllBlank(tail) ==> trimmed == body;
    } else {
      assert trimmed[|lead|..] == body + TrimEnd(tail);
      ClosesAtEnd(ms, TrimEnd(tail));
      assert trimmed[|lead|..|lead| + |body|] == body;
    }
  }
}
