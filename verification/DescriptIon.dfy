/**
  The descript.ion file of a directory: one line per item with its name and its
  comment. Names and comments are byte strings, and the entries are kept in the
  order of their names.
 */
module DescriptIon {
  import opened Basics
  import opened QtStream
  import opened AsciiText

  const TAB: Byte := 9
  const LF: Byte := 10
  const CR: Byte := 13
  const SPACE: Byte := 32
  const QUOTE: Byte := 34
  const SEPARATOR: Byte := 4

  // The UTF-8 byte order mark, section 6 of RFC 3629.
  const BOM: Bytes := [0xEF, 0xBB, 0xBF]

  datatype Entry = Entry(id: Bytes, value: Bytes)

  datatype Document = Document(entries: seq<Entry>, hadBom: bool, useBom: bool)

  // ---------- the ordered map ----------

  predicate Less(a: Bytes, b: Bytes) {
    b != [] && (a == [] || a[0] < b[0] || (a[0] == b[0] && Less(a[1..], b[1..])))
  }

  ghost predicate Sorted(es: seq<Entry>) {
    forall i, j | 0 <= i < j < |es| :: Less(es[i].id, es[j].id)
  }

  // entries[id] = value
  function Put(es: seq<Entry>, id: Bytes, value: Bytes): seq<Entry> {
    if es == [] || Less(id, es[0].id) then [Entry(id, value)] + es
    else if es[0].id == id then [Entry(id, value)] + es[1..]
    else [es[0]] + Put(es[1..], id, value)
  }

  lemma {:induction false} LessTransitive(a: Bytes, b: Bytes, c: Bytes)
    requires Less(a, b) && Less(b, c)
    ensures Less(a, c)
    decreases |a|
  {
    if a != [] && a[0] == b[0] && b[0] == c[0] { LessTransitive(a[1..], b[1..], c[1..]); }
  }

  lemma {:induction false} LessOrEqual(a: Bytes, b: Bytes)
    ensures !Less(a, a)
    ensures Less(a, b) || a == b || Less(b, a)
    ensures !(Less(a, b) && Less(b, a))
    decreases |a|
  {
    if a != [] {
      if b != [] && a[0] == b[0] {
        LessOrEqual(a[1..], b[1..]);
        if a[1..] == b[1..] { assert a == [a[0]] + a[1..] && b == [b[0]] + b[1..]; }
      } else {
        LessOrEqual(a[1..], a[1..]);
      }
    }
  }

  // A key behind all others is appended.
  lemma {:induction false} PutLast(es: seq<Entry>, id: Bytes, value: Bytes)
    requires forall i | 0 <= i < |es| :: Less(es[i].id, id)
    ensures Put(es, id, value) == es + [Entry(id, value)]
    decreases |es|
  {
    if es != [] {
      LessOrEqual(es[0].id, id);
      PutLast(es[1..], id, value);
    }
  }

  lemma {:induction false} PutKeys(es: seq<Entry>, id: Bytes, value: Bytes)
    ensures Entry(id, value) in Put(es, id, value)
    ensures forall e | e in Put(es, id, value) :: e in es || e == Entry(id, value)
    ensures forall e | e in es && e.id != id :: e in Put(es, id, value)
    decreases |es|
  {
    if es != [] && !Less(id, es[0].id) && es[0].id != id {
      PutKeys(es[1..], id, value);
      assert forall e | e in es :: e == es[0] || e in es[1..];
    }
  }

  lemma {:induction false} PutSorted(es: seq<Entry>, id: Bytes, value: Bytes)
    requires Sorted(es)
    ensures Sorted(Put(es, id, value))
    decreases |es|
  {
    if es == [] {
    } else if Less(id, es[0].id) {
      forall i | 0 < i < |es| ensures Less(id, es[i].id) { LessTransitive(id, es[0].id, es[i].id); }
    } else if es[0].id != id {
      var tail := Put(es[1..], id, value);
      PutSorted(es[1..], id, value);
      PutKeys(es[1..], id, value);
      LessOrEqual(es[0].id, id);
      forall j | 0 <= j < |tail| ensures Less(es[0].id, tail[j].id) { assert tail[j] in tail; }
    }
  }

  // ---------- tokens ----------

  // What a token takes from the text, and how much of the text it uses up.
  datatype Token = Token(raw: Bytes, used: nat)

  predicate EndsId(ch: Byte, quoted: bool) {
    ch == LF || (!quoted && (ch == SPACE || ch == TAB)) || (quoted && ch == QUOTE)
  }

  function IdToken(text: Bytes, quoted: bool): Token
    decreases |text|
  {
    if text == [] then Token([], 0)
    else if EndsId(text[0], quoted) then Token([], 1)
    else if text[0] == QUOTE then
      var t := IdToken(text[1..], true);
      Token(t.raw, t.used + 1)
    else
      var t := IdToken(text[1..], quoted);
      Token([text[0]] + t.raw, t.used + 1)
  }

  function ValueToken(text: Bytes): Token
    decreases |text|
  {
    if text == [] then Token([], 0)
    else if text[0] == LF then Token([], 1)
    else
      var t := ValueToken(text[1..]);
      Token([text[0]] + t.raw, t.used + 1)
  }

  function StripCR(s: Bytes): Bytes {
    if s == [] then [] else (if s[0] == CR then [] else [s[0]]) + StripCR(s[1..])
  }

  function Clean(raw: Bytes): Bytes {
    StripCR(Trim(raw))
  }

  // A token moves the cursor forward, but not past the end.
  lemma {:induction false} IdTokenAdvances(text: Bytes, quoted: bool)
    ensures IdToken(text, quoted).used <= |text| && (text != [] ==> IdToken(text, quoted).used > 0)
    ensures forall b | b in IdToken(text, quoted).raw :: b != LF && b != QUOTE
    decreases |text|
  {
    if text != [] && !EndsId(text[0], quoted) { IdTokenAdvances(text[1..], quoted || text[0] == QUOTE); }
  }

  lemma {:induction false} ValueTokenAdvances(text: Bytes)
    ensures ValueToken(text).used <= |text| && (text != [] ==> ValueToken(text).used > 0)
    ensures LF !in ValueToken(text).raw
    decreases |text|
  {
    if text != [] && text[0] != LF { ValueTokenAdvances(text[1..]); }
  }

  // ---------- parsing and printing ----------

  function ParseFrom(text: Bytes, es: seq<Entry>): seq<Entry>
    decreases |text|
  {
    if text == [] then es else
    var t := IdToken(text, false);
    IdTokenAdvances(text, false);
    var rest := text[t.used..];
    if Clean(t.raw) == [] then ParseFrom(rest, es)
    else
      var v := ValueToken(rest);
      ValueTokenAdvances(rest);
      ParseFrom(rest[v.used..], Put(es, Clean(t.raw), Clean(v.raw)))
  }

  function Parse(text: Bytes): Document {
    var bom := BOM <= text;
    Document(ParseFrom(if bom then text[3..] else text, []), bom, bom)
  }

  function Line(e: Entry): Bytes {
    var quote := if SPACE in e.id then [QUOTE] else [];
    quote + e.id + quote + [SPACE] + e.value + [CR, LF]
  }

  function Lines(es: seq<Entry>): Bytes {
    if es == [] then [] else Line(es[0]) + Lines(es[1..])
  }

  function Serialize(d: Document): Bytes {
    (if d.useBom then BOM + [CR, LF] else []) + Lines(d.entries)
  }

  // ---------- when a document survives printing and parsing ----------

  // What every parsed entry looks like.
  ghost predicate WellFormed(e: Entry) {
    && e.id != [] && Trimmed(e.id) && CR !in e.id && LF !in e.id && QUOTE !in e.id
    && Trimmed(e.value) && CR !in e.value && LF !in e.value
  }

  // Only a space makes the printer quote a name.
  ghost predicate Unprotected(e: Entry) {
    TAB in e.id && SPACE !in e.id
  }

  // The printed text begins like a byte order mark.
  ghost predicate LooksLikeBom(es: seq<Entry>) {
    es != [] && SPACE !in es[0].id && BOM <= es[0].id
  }

  lemma {:induction false} StripCRFacts(s: Bytes)
    ensures CR !in StripCR(s) && |StripCR(s)| <= |s|
    ensures forall b | b in StripCR(s) :: b in s
    ensures CR !in s ==> StripCR(s) == s
    ensures s != [] && s[0] != CR ==> StripCR(s) != [] && StripCR(s)[0] == s[0]
    ensures s != [] && s[|s| - 1] != CR ==> StripCR(s) != [] && StripCR(s)[|StripCR(s)| - 1] == s[|s| - 1]
  {
    if s != [] {
      StripCRFacts(s[1..]);
      if CR !in s { assert s == [s[0]] + s[1..]; }
    }
  }

  lemma CleanFacts(raw: Bytes)
    ensures Trimmed(Clean(raw)) && CR !in Clean(raw) && |Clean(raw)| <= |raw|
    ensures forall b | b in Clean(raw) :: b in raw
    ensures raw != [] && !IsSpace(raw[0]) ==> Clean(raw) != []
  {
    var l, r := TrimSplits(raw);
    StripCRFacts(Trim(raw));
    hide Trim;
    if raw != [] && !IsSpace(raw[0]) { assert l == 0 && r > 0; }
  }

  // Spaces and a carriage return around a value do no harm.
  lemma CleanPadded(value: Bytes, pad: Bytes)
    requires Trimmed(value) && CR !in value && (pad == [] || pad == [SPACE])
    ensures Clean(pad + value + [CR]) == value
  {
    var s := pad + value + [CR];
    var l, r := TrimSplits(s);
    if value == [] {
      assert forall i | 0 <= i < |s| :: IsSpace(s[i]);
      assert Trim(s) == [];
    } else {
      assert s[|pad|] == value[0] && s[|pad| + |value| - 1] == value[|value| - 1];
      assert l == |pad| && r == |pad| + |value|;
      assert s[l..r] == value;
    }
    StripCRFacts(value);
  }

  lemma {:induction false} IdTokenStops(s: Bytes, rest: Bytes, quoted: bool)
    requires rest != [] && EndsId(rest[0], quoted)
    requires QUOTE !in s && forall b | b in s :: !EndsId(b, quoted)
    ensures IdToken(s + rest, quoted) == Token(s, |s| + 1)
    decreases |s|
  {
    if s == [] {
      assert s + rest == rest;
    } else {
      assert (s + rest)[1..] == s[1..] + rest && s == [s[0]] + s[1..];
      IdTokenStops(s[1..], rest, quoted);
    }
  }

  lemma {:induction false} ValueTokenStops(s: Bytes, rest: Bytes)
    requires LF !in s && rest != [] && rest[0] == LF
    ensures ValueToken(s + rest) == Token(s, |s| + 1)
    decreases |s|
  {
    if s == [] {
      assert s + rest == rest;
    } else {
      assert (s + rest)[1..] == s[1..] + rest && s == [s[0]] + s[1..];
      ValueTokenStops(s[1..], rest);
    }
  }

  // One round of the parser, given where its two tokens end.
  lemma OneRound(text: Bytes, id: Bytes, used: nat, line: Bytes, tail: Bytes, es: seq<Entry>)
    requires IdToken(text, false) == Token(id, used) && Clean(id) != [] && LF !in line
    requires used <= |text| && text[used..] == line + [LF] + tail
    ensures ParseFrom(text, es) == ParseFrom(tail, Put(es, Clean(id), Clean(line)))
  {
    hide IdToken, Clean, Put;
    ValueTokenStops(line, [LF] + tail);
    assert line + ([LF] + tail) == line + [LF] + tail;
    var rest := text[used..];
    assert ValueToken(rest) == Token(line, |line| + 1);
    hide ValueToken;
    assert rest[|line| + 1..] == tail;
  }

  function UpTo(s: Bytes, b: Byte): Bytes {
    if s == [] || s[0] == b then [] else [s[0]] + UpTo(s[1..], b)
  }

  lemma {:induction false} UpToSplits(s: Bytes, b: Byte)
    requires b in s
    ensures b !in UpTo(s, b) && |UpTo(s, b)| < |s|
    ensures s == UpTo(s, b) + [b] + s[|UpTo(s, b)| + 1..]
  {
    if s[0] != b {
      UpToSplits(s[1..], b);
      assert s == [s[0]] + s[1..];
    }
  }

  // The name under which the parser files the printed entry.
  function KeyOf(e: Entry): Bytes {
    if TAB in e.id && SPACE !in e.id then Clean(UpTo(e.id, TAB)) else e.id
  }

  lemma PlainLine(e: Entry, tail: Bytes, es: seq<Entry>)
    requires WellFormed(e) && SPACE !in e.id && TAB !in e.id
    ensures ParseFrom(Line(e) + tail, es) == ParseFrom(tail, Put(es, e.id, e.value))
  {
    hide ParseFrom, IdToken, Clean, Put;
    var rest := [SPACE] + e.value + [CR, LF] + tail;
    var text := Line(e) + tail;
    assert text == e.id + rest;
    IdTokenStops(e.id, rest, false);
    CleanWhole(e.id);
    CleanPadded(e.value, []);
    var line := e.value + [CR];
    assert [] + e.value + [CR] == line;
    assert text[|e.id| + 1..] == line + [LF] + tail;
    OneRound(text, e.id, |e.id| + 1, line, tail, es);
  }

  lemma CleanWhole(s: Bytes)
    requires Trimmed(s) && CR !in s
    ensures Clean(s) == s
  {
    TrimmedIsFixed(s);
    StripCRFacts(s);
  }

  lemma QuotedLine(e: Entry, tail: Bytes, es: seq<Entry>)
    requires WellFormed(e) && SPACE in e.id
    ensures ParseFrom(Line(e) + tail, es) == ParseFrom(tail, Put(es, e.id, e.value))
  {
    hide ParseFrom, Clean, Put;
    var rest := [QUOTE, SPACE] + e.value + [CR, LF] + tail;
    var text := Line(e) + tail;
    assert text == [QUOTE] + (e.id + rest) && text[1..] == e.id + rest;
    IdTokenStops(e.id, rest, true);
    assert IdToken(text, false) == Token(e.id, |e.id| + 2);
    hide IdToken;
    CleanWhole(e.id);
    CleanPadded(e.value, [SPACE]);
    var line := [SPACE] + e.value + [CR];
    assert text[|e.id| + 2..] == line + [LF] + tail;
    OneRound(text, e.id, |e.id| + 2, line, tail, es);
  }

  // An unquoted tab cuts the name short.
  lemma CutLine(e: Entry, tail: Bytes, es: seq<Entry>) returns (value: Bytes)
    requires WellFormed(e) && Unprotected(e)
    ensures KeyOf(e) != [] && |KeyOf(e)| < |e.id|
    ensures ParseFrom(Line(e) + tail, es) == ParseFrom(tail, Put(es, KeyOf(e), value))
  {
    hide ParseFrom, IdToken, Clean, Put, Line;
    var p := UpTo(e.id, TAB);
    UpToSplits(e.id, TAB);
    assert e.id[0] != TAB && p != [] && p[0] == e.id[0];
    CleanFacts(p);
    hide UpTo;
    var r := e.id[|p| + 1..];
    var line := r + [SPACE] + e.value + [CR];
    PartsOfId(e, p, r);
    hide WellFormed;
    CutText(e, p, r, tail);
    IdTokenStops(p, [TAB] + line + [LF] + tail, false);
    OneRound(Line(e) + tail, p, |p| + 1, line, tail, es);
    value := Clean(line);
  }

  lemma CutText(e: Entry, p: Bytes, r: Bytes, tail: Bytes)
    requires e.id == p + [TAB] + r && SPACE !in e.id
    ensures var line := r + [SPACE] + e.value + [CR];
            Line(e) + tail == p + ([TAB] + line + [LF] + tail) && (Line(e) + tail)[|p| + 1..] == line + [LF] + tail
  {
    var line := r + [SPACE] + e.value + [CR];
    assert Line(e) == p + [TAB] + line + [LF];
    var head := p + [TAB];
    assert Line(e) + tail == head + (line + [LF] + tail);
  }

  lemma PartsOfId(e: Entry, p: Bytes, r: Bytes)
    requires WellFormed(e) && Unprotected(e) && TAB !in p && e.id == p + [TAB] + r
    ensures forall b | b in p :: !EndsId(b, false) && b != QUOTE
    ensures LF !in r && LF !in e.value
  {
    forall b | b in p ensures !EndsId(b, false) && b != QUOTE { assert b in e.id; }
    forall b | b in r ensures b != LF { assert b in e.id; }
  }

  // Every line files exactly one entry.
  lemma OneLine(e: Entry, tail: Bytes, es: seq<Entry>) returns (value: Bytes)
    requires WellFormed(e)
    ensures ParseFrom(Line(e) + tail, es) == ParseFrom(tail, Put(es, KeyOf(e), value))
    ensures !Unprotected(e) ==> KeyOf(e) == e.id && value == e.value
    ensures Unprotected(e) ==> |KeyOf(e)| < |e.id|
  {
    hide ParseFrom, Line, Put, Clean, WellFormed;
    if Unprotected(e) {
      value := CutLine(e, tail, es);
    } else {
      value := e.value;
      if SPACE in e.id { QuotedLine(e, tail, es); } else { PlainLine(e, tail, es); }
    }
  }

  // All entries are protected: the parser files them one after the other.
  lemma {:induction false} LinesParse(es: seq<Entry>, k: nat)
    requires Sorted(es) && k <= |es| && forall e | e in es :: WellFormed(e) && !Unprotected(e)
    ensures ParseFrom(Lines(es[k..]), es[..k]) == es
    decreases |es| - k
  {
    hide WellFormed, Unprotected, Line, Put;
    if k == |es| {
      assert es[k..] == [] && es[..k] == es;
    } else {
      assert es[k..][0] == es[k] && es[k..][1..] == es[k + 1..] && es[k] in es;
      hide ParseFrom;
      var _ := OneLine(es[k], Lines(es[k + 1..]), es[..k]);
      PutLast(es[..k], es[k].id, es[k].value);
      assert es[..k] + [Entry(es[k].id, es[k].value)] == es[..k + 1];
      LinesParse(es, k + 1);
    }
  }

  // ---------- ... and when it does not ----------

  lemma {:induction false} ParsedWellFormed(text: Bytes, es: seq<Entry>)
    requires forall e | e in es :: WellFormed(e)
    ensures forall e | e in ParseFrom(text, es) :: WellFormed(e)
    decreases |text|
  {
    if text != [] {
      var t := IdToken(text, false);
      IdTokenAdvances(text, false);
      var rest := text[t.used..];
      var id := Clean(t.raw);
      CleanFacts(t.raw);
      if id == [] {
        ParsedWellFormed(rest, es);
      } else {
        var v := ValueToken(rest);
        ValueTokenAdvances(rest);
        CleanFacts(v.raw);
        PutKeys(es, id, Clean(v.raw));
        assert WellFormed(Entry(id, Clean(v.raw)));
        hide WellFormed;
        ParsedWellFormed(rest[v.used..], Put(es, id, Clean(v.raw)));
      }
    }
  }

  // Every name that comes out was filed by some line.
  lemma {:induction false} KeysFromLines(es: seq<Entry>, acc: seq<Entry>, x: Entry) returns (e: Entry)
    requires (forall e | e in es :: WellFormed(e)) && x in ParseFrom(Lines(es), acc) && forall y | y in acc ::
             y.id != x.id
    ensures e in es && KeyOf(e) == x.id
    decreases |es|
  {
    hide WellFormed, Line, Put, KeyOf;
    if es == [] {
      e := x;
    } else {
      hide ParseFrom;
      var v := OneLine(es[0], Lines(es[1..]), acc);
      PutKeys(acc, KeyOf(es[0]), v);
      if KeyOf(es[0]) == x.id {
        e := es[0];
      } else {
        e := KeysFromLines(es[1..], Put(acc, KeyOf(es[0]), v), x);
      }
    }
  }

  // No name is cut short if all names come out: the longest name that is cut would have to come
  // from an even longer one.
  lemma {:induction false} NothingIsCut(es: seq<Entry>, e: Entry, bound: nat)
    requires (forall x | x in es :: WellFormed(x)) && ParseFrom(Lines(es), []) == es
    requires (forall x | x in es :: |x.id| <= bound) && e in es
    ensures !Unprotected(e)
    decreases bound - |e.id|
  {
    hide WellFormed, ParseFrom, Lines, KeyOf;
    if Unprotected(e) {
      var longer := KeysFromLines(es, [], e);
      KeyLength(longer);
      if Unprotected(longer) { NothingIsCut(es, longer, bound); }
    }
  }

  lemma KeyLength(e: Entry)
    requires WellFormed(e)
    ensures if Unprotected(e) then |KeyOf(e)| < |e.id| else KeyOf(e) == e.id
  {
    if Unprotected(e) {
      UpToSplits(e.id, TAB);
      CleanFacts(UpTo(e.id, TAB));
    }
  }

  lemma {:induction false} LengthBound(es: seq<Entry>) returns (bound: nat)
    ensures forall x | x in es :: |x.id| <= bound
  {
    if es == [] {
      bound := 0;
    } else {
      bound := LengthBound(es[1..]);
      bound := if bound < |es[0].id| then |es[0].id| else bound;
    }
  }

  // The entries of a document come back from its printed lines exactly when each of them is
  // well formed and no name holds a tab without a space.
  lemma EntriesComeBack(es: seq<Entry>)
    requires Sorted(es)
    ensures ParseFrom(Lines(es), []) == es <==> forall e | e in es :: WellFormed(e) && !Unprotected(e)
  {
    if forall e | e in es :: WellFormed(e) && !Unprotected(e) {
      LinesParse(es, 0);
      assert es[0..] == es && es[..0] == [];
    }
    if ParseFrom(Lines(es), []) == es {
      ParsedWellFormed(Lines(es), []);
      var bound := LengthBound(es);
      forall e | e in es ensures WellFormed(e) && !Unprotected(e) { NothingIsCut(es, e, bound); }
    }
  }

  lemma BomPrefix(s: Bytes, rest: Bytes)
    requires rest != [] && rest[0] == SPACE
    ensures BOM <= s + rest <==> BOM <= s
  {
    var text := s + rest;
    if BOM <= text {
      assert text[0] == 0xEF && text[1] == 0xBB && text[2] == 0xBF;
      assert |s| > 2;
      assert s[..3] == text[..3];
    }
    if BOM <= s { assert text[..3] == s[..3]; }
  }

  lemma BeginsLikeBom(es: seq<Entry>)
    ensures BOM <= Lines(es) <==> LooksLikeBom(es)
  {
    if es != [] {
      var e, tail := es[0], Lines(es[1..]);
      if SPACE in e.id {
        assert Lines(es)[0] == QUOTE;
      } else {
        var rest := [SPACE] + e.value + [CR, LF] + tail;
        assert Line(e) + tail == e.id + rest;
        BomPrefix(e.id, rest);
      }
    }
  }

  // The parser skips the empty line behind a byte order mark.
  lemma BlankLine(text: Bytes, es: seq<Entry>)
    ensures ParseFrom([CR, LF] + text, es) == ParseFrom(text, es)
  {
    var all := [CR, LF] + text;
    assert all == [CR] + ([LF] + text);
    IdTokenStops([CR], [LF] + text, false);
    assert all[2..] == text;
    CleanPadded([], []);
    assert [] + [] + [CR] == [CR];
  }

  // Parsing what was printed gives the document back, with the flag for the byte order mark,
  // exactly when its entries survive and the text without a mark does not look as if it had one.
  lemma RoundTrip(d: Document)
    requires Sorted(d.entries)
    ensures Parse(Serialize(d)) == Document(d.entries, d.useBom, d.useBom) <==>
            (forall e | e in d.entries :: WellFormed(e) && !Unprotected(e)) && (d.useBom || !LooksLikeBom(d.entries))
  {
    hide ParseFrom, WellFormed, Unprotected, LooksLikeBom, Lines;
    var lines := Lines(d.entries);
    EntriesComeBack(d.entries);
    BeginsLikeBom(d.entries);
    if d.useBom {
      var text := BOM + ([CR, LF] + lines);
      assert Serialize(d) == text && BOM <= text && text[3..] == [CR, LF] + lines;
      BlankLine(lines, []);
    } else {
      assert Serialize(d) == lines;
    }
  }

  // ---------- update and lookup ----------

  function Lower(s: Bytes): Bytes {
    seq(|s|, i requires 0 <= i < |s| => if 65 <= s[i] <= 90 then s[i] + 32 else s[i])
  }

  predicate SameName(a: Bytes, b: Bytes) {
    Lower(a) == Lower(b)
  }

  // The position of the first entry whose name differs at most in case, or the length.
  function Find(es: seq<Entry>, id: Bytes): (k: nat)
    ensures k <= |es|
    ensures k < |es| ==> SameName(es[k].id, id)
    ensures forall i | 0 <= i < k :: !SameName(es[i].id, id)
  {
    if es == [] || SameName(es[0].id, id) then 0 else
    var k := Find(es[1..], id);
    assert forall i | 0 < i <= k :: es[i] == es[1..][i - 1];
    k + 1
  }

  predicate NonAscii(s: Bytes) {
    exists b :: b in s && b > 0x7F
  }

  function NewValue(comment: Bytes): Bytes {
    Trim(StripCR(comment))
  }

  // The document after an update, and whether there was anything to update.
  function Update(d: Document, itemId: Bytes, comment: Bytes): (Document, bool) {
    var id, value := Trim(itemId), NewValue(comment);
    var k := Find(d.entries, id);
    if id == [] then (d, false)
    else if value == [] then
      (if k < |d.entries| then d.(entries := d.entries[..k] + d.entries[k + 1..]) else d, true)
    else
      (d.(entries := if k < |d.entries| then d.entries[k := Entry(d.entries[k].id, value)]
        else Put(d.entries, id, value),
          useBom := d.useBom || NonAscii(id) || NonAscii(value)), true)
  }

  function ForDisplay(value: Bytes): Bytes {
    Trim(UpTo(value, SEPARATOR))
  }

  function Lookup(d: Document, id: Bytes): Option<Bytes> {
    var k := Find(d.entries, id);
    if k < |d.entries| then Some(ForDisplay(d.entries[k].value)) else None
  }

  ghost predicate CaseUnique(es: seq<Entry>) {
    forall i, j | 0 <= i < j < |es| :: !SameName(es[i].id, es[j].id)
  }

  // What can be said of Find without its recursion.
  lemma FindIs(es: seq<Entry>, id: Bytes, k: nat)
    requires k <= |es| && (k < |es| ==> SameName(es[k].id, id)) && forall i | 0 <= i < k :: !SameName(es[i].id, id)
    ensures Find(es, id) == k
  {
    hide SameName;
    var f := Find(es, id);
    assert f < |es| ==> SameName(es[f].id, id);
  }

  // Putting a new name puts it between the others, which keep their order.
  lemma {:induction false} PutSplits(es: seq<Entry>, id: Bytes, value: Bytes) returns (k: nat)
    requires forall e | e in es :: e.id != id
    ensures k <= |es| && Put(es, id, value) == es[..k] + [Entry(id, value)] + es[k..]
    decreases |es|
  {
    if es == [] || Less(id, es[0].id) {
      k := 0;
    } else {
      assert es[0] in es;
      var j := PutSplits(es[1..], id, value);
      k := j + 1;
      assert es[..k] == [es[0]] + es[1..][..j] && es[k..] == es[1..][j..];
    }
  }

  // An update that writes a comment: the entry found keeps its name, a new one is put in order.
  lemma UpdateSplits(d: Document, itemId: Bytes, comment: Bytes) returns (k: nat, name: Bytes, rest: nat)
    requires Trim(itemId) != [] && NewValue(comment) != []
    ensures k <= rest <= |d.entries| && SameName(name, Trim(itemId)) && (rest == k ==> name == Trim(itemId))
    ensures rest == k || (rest == k + 1 && d.entries[k].id == name)
    ensures Update(d, itemId, comment).0.entries ==
            d.entries[..k] + [Entry(name, NewValue(comment))] + d.entries[rest..]
    ensures forall i | 0 <= i < |d.entries| && !(k <= i < rest) && SameName(d.entries[i].id, Trim(itemId)) ::
              rest == k + 1 && i > k
  {
    var es, id, value := d.entries, Trim(itemId), NewValue(comment);
    hide Put, SameName, Trim, NewValue;
    k := Find(es, id);
    if k < |es| {
      name, rest := es[k].id, k + 1;
    } else {
      SameAsItself(id);
      assert forall e | e in es :: e.id != id;
      k := PutSplits(es, id, value);
      name, rest := id, k;
    }
  }

  lemma SameAsItself(id: Bytes)
    ensures SameName(id, id)
  {}

  // The entry found by an erasing update goes.
  lemma EraseSplits(d: Document, itemId: Bytes, comment: Bytes)
    requires Trim(itemId) != [] && NewValue(comment) == []
    ensures var k := Find(d.entries, Trim(itemId));
            Update(d, itemId, comment).0.entries ==
            if k < |d.entries| then d.entries[..k] + d.entries[k + 1..] else d.entries
  {}

  // An update keeps the names sorted and different up to case.
  lemma UpdateKeepsNames(d: Document, itemId: Bytes, comment: Bytes)
    requires Sorted(d.entries) && CaseUnique(d.entries)
    ensures Sorted(Update(d, itemId, comment).0.entries) && CaseUnique(Update(d, itemId, comment).0.entries)
  {
    hide SameName, Trim, NewValue, Less;
    var es, id, value := d.entries, Trim(itemId), NewValue(comment);
    var es' := Update(d, itemId, comment).0.entries;
    if id != [] && value != [] {
      if Find(es, id) == |es| { PutSorted(es, id, value); }
      hide Put;
      var k, name, rest := UpdateSplits(d, itemId, comment);
      hide Update;
      forall i, j | 0 <= i < j < |es'| ensures !SameName(es'[i].id, es'[j].id) {
        UpdatedPair(es, es', k, name, rest, value, i, j);
      }
    }
  }

  lemma UpdatedPair(es: seq<Entry>, es': seq<Entry>, k: nat, name: Bytes, rest: nat, value: Bytes, i: nat, j: nat)
    requires CaseUnique(es) && k <= rest <= |es| && (rest == k || (rest == k + 1 && es[k].id == name))
    requires es' == es[..k] + [Entry(name, value)] + es[rest..] && i < j < |es'|
    requires rest == k ==> forall x | 0 <= x < |es| :: !SameName(es[x].id, name)
    ensures !SameName(es'[i].id, es'[j].id)
  {
    assert rest == k ==> forall x | 0 <= x < |es| :: !SameName(name, es[x].id);
    hide SameName;
    assert forall x | 0 <= x < |es'| :: es'[x] == if x < k then es[x] else if x == k then Entry(name, value)
      else es[x - k - 1 + rest];
  }

  // After an update that writes a comment, every spelling of the name shows it. After one that
  // erases, no spelling shows anything, exactly when no second entry bore the name. Other names
  // show what they showed.
  lemma LookupAfterUpdate(d: Document, itemId: Bytes, comment: Bytes, any: Bytes)
    requires Trim(itemId) != []
    ensures var d', value, same := Update(d, itemId, comment).0, NewValue(comment), SameName(any, Trim(itemId));
            && (same && value != [] ==> Lookup(d', any) == Some(ForDisplay(value)))
            && (same && value == [] ==> (Lookup(d', any) == None <==> !Twice(d.entries, any)))
            && (!same ==> Lookup(d', any) == Lookup(d, any))
  {
    var id, value := Trim(itemId), NewValue(comment);
    SameNames(any, id);
    hide SameName, Trim, NewValue, ForDisplay, Find, Put, Less, Twice;
    if value != [] {
      var k, name, rest := UpdateSplits(d, itemId, comment);
      hide Update;
      WrittenLookup(d.entries, k, name, rest, value, id, any);
    } else {
      EraseSplits(d, itemId, comment);
      hide Update;
      ErasedLookup(d.entries, Find(d.entries, id), id, any);
    }
  }

  ghost predicate Twice(es: seq<Entry>, any: Bytes) {
    exists i, j :: 0 <= i < j < |es| && SameName(es[i].id, any) && SameName(es[j].id, any)
  }

  lemma SameNames(a: Bytes, b: Bytes)
    ensures SameName(a, b) ==> forall x :: SameName(x, a) == SameName(x, b)
    ensures SameName(a, b) == SameName(b, a)
    ensures !SameName(a, b) ==> forall x :: !(SameName(x, a) && SameName(x, b))
  {}

  lemma WrittenLookup(es: seq<Entry>, k: nat, name: Bytes, rest: nat, value: Bytes, id: Bytes, any: Bytes)
    requires k <= rest <= |es| && SameName(name, id) && (rest == k || (rest == k + 1 && es[k].id == name))
    requires forall i | 0 <= i < |es| && !(k <= i < rest) && SameName(es[i].id, id) :: rest == k + 1 && i > k
    requires SameName(any, id) ==> forall x :: SameName(x, any) == SameName(x, id)
    requires !SameName(any, id) ==> forall x :: !(SameName(x, any) && SameName(x, id))
    ensures var es' := es[..k] + [Entry(name, value)] + es[rest..];
            && (SameName(any, id) ==> Find(es', any) == k)
            && (!SameName(any, id) ==>
                  && (Find(es', any) < |es'| <==> Find(es, any) < |es|)
                  && (Find(es, any) < |es| ==> es'[Find(es', any)] == es[Find(es, any)]))
  {
    hide SameName, Find;
    var es' := es[..k] + [Entry(name, value)] + es[rest..];
    if SameName(any, id) {
      forall i | 0 <= i < k ensures !SameName(es'[i].id, any) { assert es'[i] == es[i]; }
      FindIs(es', any, k);
    } else {
      var f := Find(es, any);
      var f' := if f < k then f else f - rest + k + 1;
      assert f < |es| ==> !(k <= f < rest);
      assert forall i | 0 <= i < |es'| :: es'[i] == if i < k then es[i] else if i == k then Entry(name, value)
        else es[i - k - 1 + rest];
      FindIs(es', any, f');
    }
  }

  lemma ErasedTwin(es: seq<Entry>, es': seq<Entry>, k: nat, any: Bytes)
    requires k == Find(es, any) && es' == if k < |es| then es[..k] + es[k + 1..] else es
    ensures Find(es', any) == |es'| <==> !Twice(es, any)
  {
    hide SameName, Find, Twice;
    if Find(es', any) < |es'| { TwinStays(es, es', k, any); }
    if Twice(es, any) { TwinFound(es, es', k, any); }
  }

  lemma TwinStays(es: seq<Entry>, es': seq<Entry>, k: nat, any: Bytes)
    requires k == Find(es, any) && es' == if k < |es| then es[..k] + es[k + 1..] else es
    requires Find(es', any) < |es'|
    ensures Twice(es, any)
  {
    hide SameName, Find;
    var f := Find(es', any);
    assert forall i | 0 <= i < k :: es'[i] == es[i];
    assert f >= k;
    assert SameName(es[k].id, any) && SameName(es[f + 1].id, any);
  }

  lemma TwinFound(es: seq<Entry>, es': seq<Entry>, k: nat, any: Bytes)
    requires k == Find(es, any) && es' == if k < |es| then es[..k] + es[k + 1..] else es
    requires Twice(es, any)
    ensures Find(es', any) < |es'|
  {
    hide SameName, Find;
    var i, j :| 0 <= i < j < |es| && SameName(es[i].id, any) && SameName(es[j].id, any);
    assert k <= i;
    assert es'[j - 1] == es[j];
    assert SameName(es'[j - 1].id, any);
  }

  lemma ErasedLookup(es: seq<Entry>, k: nat, id: Bytes, any: Bytes)
    requires k == Find(es, id)
    requires SameName(any, id) ==> forall x :: SameName(x, any) == SameName(x, id)
    requires !SameName(any, id) ==> forall x :: !(SameName(x, any) && SameName(x, id))
    ensures var es' := if k < |es| then es[..k] + es[k + 1..] else es;
            && (SameName(any, id) ==> (Find(es', any) == |es'| <==> !Twice(es, any)))
            && (!SameName(any, id) ==>
                  && (Find(es', any) < |es'| <==> Find(es, any) < |es|)
                  && (Find(es, any) < |es| ==> es'[Find(es', any)] == es[Find(es, any)]))
  {
    hide SameName, Find;
    var es' := if k < |es| then es[..k] + es[k + 1..] else es;
    assert k < |es| ==> forall i | 0 <= i < |es'| :: es'[i] == if i < k then es[i] else es[i + 1];
    if SameName(any, id) {
      FindIs(es, any, k);
      ErasedTwin(es, es', k, any);
    } else if k < |es| {
      var f := Find(es, any);
      assert f < |es| ==> f != k;
      FindIs(es', any, if f < k then f else f - 1);
    }
  }

  // Saving and loading the document yields the same entries, and a mark exactly if it was written.
  ghost predicate ComesBack(d: Document) {
    Parse(Serialize(d)) == Document(d.entries, d.useBom, d.useBom)
  }

  // A new name that is printed so that the parser reads all of it.
  predicate PrintableId(id: Bytes) {
    CR !in id && LF !in id && QUOTE !in id && (TAB in id ==> SPACE in id)
  }

  // A document that can be loaded is updated and saved. It can be loaded again exactly when a comment
  // that is written has a single line, and its name is an old one or printable; or when the comment
  // that is erased was not all that kept a name that begins like a mark from beginning the file.
  lemma UpdateComesBack(d: Document, itemId: Bytes, comment: Bytes)
    requires Sorted(d.entries) && ComesBack(d)
    ensures var id, value := Trim(itemId), NewValue(comment);
            var k := Find(d.entries, id);
            ComesBack(Update(d, itemId, comment).0) <==>
            || id == []
            || (value != [] && LF !in value && (k < |d.entries| || PrintableId(id)))
            || (value == [] && (d.useBom || k != 0 || |d.entries| < 2 || !LooksLikeBom(d.entries[1..])))
  {
    hide Trim, NewValue, ComesBack, LooksLikeBom, WellFormed, Unprotected, Less, Put, PrintableId, Find;
    var es, id, value := d.entries, Trim(itemId), NewValue(comment);
    Loadable(d);
    if id != [] && value == [] {
      var k := Find(es, id);
      var d' := Update(d, itemId, comment).0;
      assert forall e | e in d'.entries :: e in es;
      Loadable(d');
      if k < |es| { ErasedBegins(es, k); }
    } else if id != [] {
      UpdatedSorted(d, itemId, comment);
      WrittenEntries(d, itemId, comment);
      WrittenBegins(d, itemId, comment);
      hide Update;
      Loadable(Update(d, itemId, comment).0);
    }
  }

  // The round trip, said of a document that comes back.
  lemma Loadable(d: Document)
    requires Sorted(d.entries)
    ensures ComesBack(d) <==>
            (forall e | e in d.entries :: WellFormed(e) && !Unprotected(e)) && (d.useBom || !LooksLikeBom(d.entries))
  {
    hide Parse, Serialize, Sorted, WellFormed, Unprotected, LooksLikeBom;
    RoundTrip(d);
  }

  lemma UpdatedSorted(d: Document, itemId: Bytes, comment: Bytes)
    requires Sorted(d.entries)
    ensures Sorted(Update(d, itemId, comment).0.entries)
  {
    hide Trim, NewValue, Less, Put;
    PutSorted(d.entries, Trim(itemId), NewValue(comment));
  }

  lemma ErasedBegins(es: seq<Entry>, k: nat)
    requires k < |es|
    ensures LooksLikeBom(es[..k] + es[k + 1..]) <==>
            if k == 0 then |es| >= 2 && LooksLikeBom(es[1..]) else LooksLikeBom(es)
  {}

  // The entries of a written update can be read back exactly under the first of these conditions.
  lemma WrittenEntries(d: Document, itemId: Bytes, comment: Bytes)
    requires Sorted(d.entries) && (forall e | e in d.entries :: WellFormed(e) && !Unprotected(e))
    requires Trim(itemId) != [] && NewValue(comment) != []
    ensures (forall e | e in Update(d, itemId, comment).0.entries :: WellFormed(e) && !Unprotected(e)) <==>
            LF !in NewValue(comment) && (Find(d.entries, Trim(itemId)) < |d.entries| || PrintableId(Trim(itemId)))
  {
    var es, id, value := d.entries, Trim(itemId), NewValue(comment);
    var es' := Update(d, itemId, comment).0.entries;
    var k := Find(es, id);
    var _, _ := TrimSplits(itemId);
    NewValueFacts(comment);
    hide Trim, NewValue, SameName, Less;
    if k == |es| {
      PutKeys(es, id, value);
      NewName(es, id);
    } else {
      assert es'[k] == Entry(es[k].id, value) && es[k] in es;
      assert es'[k] in es';
    }
    assert forall e | e in es' :: e in es || e.value == value;
  }

  // A name that is not plain ASCII brings the mark with it, and a plain one does not look like a mark.
  lemma WrittenBegins(d: Document, itemId: Bytes, comment: Bytes)
    requires d.useBom || !LooksLikeBom(d.entries)
    requires Trim(itemId) != [] && NewValue(comment) != []
    ensures var d' := Update(d, itemId, comment).0;
            d'.useBom || !LooksLikeBom(d'.entries)
  {
    hide Trim, NewValue, Less;
    var es, id, value := d.entries, Trim(itemId), NewValue(comment);
    var d' := Update(d, itemId, comment).0;
    if !d'.useBom && LooksLikeBom(d'.entries) {
      assert d'.entries[0].id[0] == 0xEF;
      assert 0xEF !in id;
      if Find(es, id) == |es| {
        SameAsItself(id);
        hide SameName;
        var k := PutSplits(es, id, value);
      }
    }
  }

  // The first of two names is erased. The other one begins with the bytes of a mark, and is read
  // without them when the file is loaded again.
  lemma EraseMayNotComeBack()
    ensures var d := Document([Entry([97], [118]), Entry([0xEF, 0xBB, 0xBF, 120], [119])], false, false);
            Sorted(d.entries) && ComesBack(d) && !ComesBack(Update(d, [97], []).0)
  {
    var first, second := Entry([97], [118]), Entry([0xEF, 0xBB, 0xBF, 120], [119]);
    var d := Document([first, second], false, false);
    assert Trim([97]) == [97] && NewValue([]) == [] by {
      TrimmedIsFixed([97]);
      TrimmedIsFixed([]);
    }
    SameAsItself([97]);
    assert LooksLikeBom([second]) by { assert second.id[..3] == BOM; }
    assert Sorted(d.entries) by { assert Less([97], second.id); }
    assert WellFormed(first) && WellFormed(second) && !Unprotected(first) && !Unprotected(second);
    assert !LooksLikeBom(d.entries);
    hide ComesBack, Trim, NewValue, WellFormed, Unprotected, Sorted, SameName, Update, LooksLikeBom, Find;
    FindIs(d.entries, [97], 0);
    Loadable(d);
    assert d.entries[1..] == [second];
    UpdateComesBack(d, [97], []);
  }

  lemma {:induction false} ParsedSorted(text: Bytes, es: seq<Entry>)
    requires Sorted(es)
    ensures Sorted(ParseFrom(text, es))
    decreases |text|
  {
    if text != [] {
      hide Sorted, IdToken, ValueToken, Clean, Put;
      var t := IdToken(text, false);
      IdTokenAdvances(text, false);
      var rest := text[t.used..];
      if Clean(t.raw) == [] {
        ParsedSorted(rest, es);
      } else {
        var v := ValueToken(rest);
        ValueTokenAdvances(rest);
        PutSorted(es, Clean(t.raw), Clean(v.raw));
        ParsedSorted(rest[v.used..], Put(es, Clean(t.raw), Clean(v.raw)));
      }
    }
  }

  // Any file at all is loaded as a sorted document, and saving that document and loading it again
  // gives the same, exactly if no name has an unquoted tab and none begins the file like a mark.
  lemma LoadedComesBack(text: Bytes)
    ensures var d := Parse(text);
            && Sorted(d.entries)
            && (ComesBack(d) <==>
                  (forall e | e in d.entries :: !Unprotected(e)) && (d.useBom || !LooksLikeBom(d.entries)))
  {
    hide ParseFrom, ComesBack, Unprotected, LooksLikeBom, WellFormed, Less;
    var d := Parse(text);
    var rest := if BOM <= text then text[3..] else text;
    ParsedSorted(rest, []);
    ParsedWellFormed(rest, []);
    Loadable(d);
  }

  // Names are the same if they differ at most in the case of the letters A to Z.
  lemma SameNameExactly(a: Bytes, b: Bytes)
    ensures SameName(a, b) <==>
            && |a| == |b|
            && forall i | 0 <= i < |a| ::
                 || a[i] == b[i]
                 || (65 <= a[i] <= 90 && b[i] == a[i] + 32)
                 || (65 <= b[i] <= 90 && a[i] == b[i] + 32)
  {
    var x, y := Lower(a), Lower(b);
    if SameName(a, b) {
      forall i | 0 <= i < |a|
        ensures a[i] == b[i] || (65 <= a[i] <= 90 && b[i] == a[i] + 32) || (65 <= b[i] <= 90 && a[i] == b[i] + 32)
      {
        assert x[i] == y[i];
      }
    }
  }

  // ---------- what is kept of a comment, and what is shown of it ----------

  // The text without the spaces at its ends, which are s[..l] and s[r..].
  ghost predicate IsTrimmed(t: Bytes, s: Bytes, l: nat, r: nat) {
    && l <= r <= |s| && t == s[l..r]
    && (forall i | 0 <= i < l || r <= i < |s| :: IsSpace(s[i]))
    && (t != [] ==> !IsSpace(t[0]) && !IsSpace(t[|t| - 1]))
  }

  // Only what stands before the first byte 4 is shown, without the spaces around it.
  lemma ShownText(value: Bytes) returns (n: nat, l: nat, r: nat)
    ensures n <= |value| && (forall i | 0 <= i < n :: value[i] != 4) && (n < |value| ==> value[n] == 4)
    ensures IsTrimmed(ForDisplay(value), value[..n], l, r)
  {
    var before := UpTo(value, SEPARATOR);
    n := |before|;
    if SEPARATOR in value {
      UpToSplits(value, SEPARATOR);
      assert value[..n] == before;
    } else {
      UpToAll(value, SEPARATOR);
      assert value[..n] == value;
    }
    assert forall i | 0 <= i < n :: value[i] == before[i] && before[i] in before;
    hide UpTo;
    l, r := TrimSplits(before);
  }

  lemma {:induction false} UpToAll(s: Bytes, b: Byte)
    requires b !in s
    ensures UpTo(s, b) == s
  {
    if s != [] {
      UpToAll(s[1..], b);
      assert s == [s[0]] + s[1..];
    }
  }

  // Of a new comment the carriage returns go, wherever they are ...
  lemma {:induction false} StripCRParts(a: Bytes, b: Bytes, x: Byte)
    ensures StripCR(a + b) == StripCR(a) + StripCR(b) && StripCR([x]) == (if x == 13 then [] else [x])
    decreases |a|
  {
    assert StripCR([x]) == if x == 13 then [] else [x] by { assert [x][1..] == []; }
    if a == [] {
      assert a + b == b;
    } else {
      StripCRParts(a[1..], b, x);
      var all, head := a + b, if a[0] == CR then [] else [a[0]];
      assert all[0] == a[0] && all[1..] == a[1..] + b;
      assert StripCR(all) == head + StripCR(a[1..] + b);
      assert StripCR(a) == head + StripCR(a[1..]);
      hide StripCR;
      assert head + (StripCR(a[1..]) + StripCR(b)) == head + StripCR(a[1..]) + StripCR(b);
    }
  }

  // ... and then the spaces around the rest.
  lemma KeptText(comment: Bytes) returns (l: nat, r: nat)
    ensures IsTrimmed(NewValue(comment), StripCR(comment), l, r)
  {
    l, r := TrimSplits(StripCR(comment));
  }

  // A comment without spaces at its ends, carriage returns and byte 4 is shown as it was given under
  // every spelling of the name; and it still is after saving and loading if the document comes back.
  lemma CommentIsShown(d: Document, itemId: Bytes, comment: Bytes, any: Bytes)
    requires Trim(itemId) != [] && SameName(any, Trim(itemId))
    requires comment != [] && !IsSpace(comment[0]) && !IsSpace(comment[|comment| - 1])
    requires 13 !in comment && 4 !in comment
    ensures var d' := Update(d, itemId, comment).0;
            && Lookup(d', any) == Some(comment)
            && (ComesBack(d') ==> Lookup(Parse(Serialize(d')), any) == Some(comment))
  {
    StripCRFacts(comment);
    TrimmedIsFixed(comment);
    UpToAll(comment, SEPARATOR);
    assert NewValue(comment) == comment && ForDisplay(comment) == comment;
    hide SameName, Trim, NewValue, ForDisplay, Update, Find, Twice, StripCR, UpTo, Parse, Serialize;
    LookupAfterUpdate(d, itemId, comment, any);
  }

  // The update reports whether there was a name. The mark is asked for from the first byte above 127
  // on that is written, and never taken back.
  lemma MarkAfterUpdate(d: Document, itemId: Bytes, comment: Bytes)
    ensures var (d', ok) := Update(d, itemId, comment);
            && (ok <==> Trim(itemId) != []) && (!ok ==> d' == d)
            && (d'.useBom <==>
                  || d.useBom
                  || (ok && NewValue(comment) != []
                      && !forall b | b in Trim(itemId) || b in NewValue(comment) :: b <= 127))
  {
    hide Trim, NewValue, Find, Put;
  }

  lemma NewName(es: seq<Entry>, id: Bytes)
    requires Find(es, id) == |es|
    ensures forall e | e in es :: e.id != id
  {
    SameAsItself(id);
    hide SameName;
  }

  lemma NewValueFacts(comment: Bytes)
    ensures Trimmed(NewValue(comment)) && CR !in NewValue(comment)
  {
    var l, r := TrimSplits(StripCR(comment));
    StripCRFacts(comment);
    hide Trim;
    assert forall b | b in NewValue(comment) :: b in StripCR(comment);
  }

  // Two names that differ in case only can be loaded from a file. Erasing one of them then leaves
  // the other one to be found.
  lemma EraseMayLeaveATwin()
    ensures var d := Document([Entry([65], [66]), Entry([97], [98])], false, false);
            Sorted(d.entries) && Lookup(Update(d, [97], []).0, [97]) == Some([98])
  {
    var es := [Entry([65], [66]), Entry([97], [98])];
    var d := Document(es, false, false);
    assert Sorted(es) by { assert Less([65], [97]); }
    assert SameName([65], [97]) by { assert Lower([65]) == [97] && Lower([97]) == [97]; }
    SameAsItself([97]);
    assert Trim([97]) == [97] && NewValue([]) == [] && ForDisplay([98]) == [98] by {
      TrimmedIsFixed([97]);
      TrimmedIsFixed([98]);
      TrimmedIsFixed([]);
      assert UpTo([98], SEPARATOR) == [98];
    }
    hide SameName, Trim, NewValue, ForDisplay, Sorted, Find;
    FindIs(es, [97], 0);
    EraseSplits(d, [97], []);
    var es' := Update(d, [97], []).0.entries;
    assert es' == [Entry([97], [98])];
    FindIs(es', [97], 0);
  }

  // ---------- the document changed in place ----------

  lemma SliceOfSlice(text: Bytes, a: nat, n: nat)
    requires a <= |text| && n <= |text[a..]|
    ensures text[a..][n..] == text[a + n..]
  {}

  // What the two tokenizers return at a cursor, and where they leave it.
  function NextId(text: Bytes, cursor: nat): (Bytes, nat)
    requires cursor <= |text|
  {
    var t := IdToken(text[cursor..], false);
    (Clean(t.raw), cursor + t.used)
  }

  function NextValue(text: Bytes, cursor: nat): (Bytes, nat)
    requires cursor <= |text|
  {
    var t := ValueToken(text[cursor..]);
    (Clean(t.raw), cursor + t.used)
  }

  function ParseAt(text: Bytes, cursor: nat, es: seq<Entry>): seq<Entry> {
    if cursor <= |text| then ParseFrom(text[cursor..], es) else es
  }

  lemma Unfold(text: Bytes, es: seq<Entry>)
    requires text != []
    ensures var t := IdToken(text, false);
            && t.used <= |text|
            && var rest := text[t.used..];
               var v := ValueToken(rest);
               && v.used <= |rest|
               && ParseFrom(text, es) ==
                  if Clean(t.raw) == [] then ParseFrom(rest, es)
                  else ParseFrom(rest[v.used..], Put(es, Clean(t.raw), Clean(v.raw)))
  {
    IdTokenAdvances(text, false);
    ValueTokenAdvances(text[IdToken(text, false).used..]);
    hide IdToken, ValueToken, Clean, Put;
  }

  // One turn of the parser's loop.
  lemma Turn(text: Bytes, cursor: nat, es: seq<Entry>)
    requires cursor < |text|
    ensures NextId(text, cursor).1 <= |text|
    ensures var (id, behindId) := NextId(text, cursor);
            var (value, behindValue) := NextValue(text, behindId);
            ParseAt(text, cursor, es) ==
            if id == [] then ParseAt(text, behindId, es) else ParseAt(text, behindValue, Put(es, id, value))
  {
    hide IdToken, ValueToken, Clean, Put, ParseFrom;
    Unfold(text[cursor..], es);
    var t := IdToken(text[cursor..], false);
    SliceOfSlice(text, cursor, t.used);
    SliceOfSlice(text, cursor + t.used, ValueToken(text[cursor + t.used..]).used);
  }

  // The token whose first part was read already.
  function Rest(raw: Bytes, used: nat, t: Token): Token {
    Token(raw + t.raw, used + t.used)
  }

  lemma IdTokenTurn(text: Bytes, cursor: nat, quoted: bool, raw: Bytes, used: nat)
    requires cursor < |text|
    ensures var ch := text[cursor];
            Rest(raw, used, IdToken(text[cursor..], quoted)) ==
            if EndsId(ch, quoted) then Token(raw, used + 1)
            else if ch == QUOTE then Rest(raw, used + 1, IdToken(text[cursor + 1..], true))
            else Rest(raw + [ch], used + 1, IdToken(text[cursor + 1..], quoted))
  {
    assert text[cursor..][1..] == text[cursor + 1..];
    assert raw + [] == raw;
    assert forall s: Bytes :: raw + ([text[cursor]] + s) == raw + [text[cursor]] + s;
  }

  lemma IdTokenEnds(text: Bytes, quoted: bool, raw: Bytes, used: nat)
    ensures Rest(raw, used, IdToken(text[|text|..], quoted)) == Token(raw, used)
  {
    assert raw + [] == raw;
  }

  lemma ValueTokenTurn(text: Bytes, cursor: nat, raw: Bytes, used: nat)
    requires cursor < |text|
    ensures Rest(raw, used, ValueToken(text[cursor..])) ==
            if text[cursor] == LF then Token(raw, used + 1)
            else Rest(raw + [text[cursor]], used + 1, ValueToken(text[cursor + 1..]))
  {
    assert text[cursor..][1..] == text[cursor + 1..];
    assert raw + [] == raw;
    assert forall s: Bytes :: raw + ([text[cursor]] + s) == raw + [text[cursor]] + s;
  }

  lemma ValueTokenEnds(text: Bytes, raw: Bytes, used: nat)
    ensures Rest(raw, used, ValueToken(text[|text|..])) == Token(raw, used)
  {
    assert raw + [] == raw;
  }

  lemma ParseNothing(text: Bytes, es: seq<Entry>)
    ensures ParseAt(text, |text|, es) == es
  {}

  lemma NoLines(es: seq<Entry>)
    ensures Lines(es[|es|..]) == []
  {}

  lemma LinesCut(es: seq<Entry>, i: nat)
    requires i < |es|
    ensures Lines(es[i..]) == Line(es[i]) + Lines(es[i + 1..])
  {
    assert es[i..][0] == es[i] && es[i..][1..] == es[i + 1..];
  }

  class DescriptIonDocument {
    var entries: seq<Entry>
    var had_utf8_bom: bool
    var use_utf8_bom_on_save: bool

    ghost function Value(): Document
      reads this
    {
      Document(entries, had_utf8_bom, use_utf8_bom_on_save)
    }

    // Reads an identifier from the cursor on and moves the cursor behind it.
    static method ReadIdToken(text: Bytes, cursor: nat) returns (id: Bytes, cursor': nat)
      requires cursor < |text|
      ensures cursor < cursor' <= |text| && (id, cursor') == NextId(text, cursor)
    {
      var result: Bytes := [];
      var quoted := false;
      cursor' := cursor;
      ghost var whole := IdToken(text[cursor..], false);
      IdTokenAdvances(text[cursor..], false);
      hide IdToken, Clean, EndsId;
      while cursor' < |text|
        invariant cursor <= cursor' <= |text|
        invariant whole == Rest(result, cursor' - cursor, IdToken(text[cursor'..], quoted))
      {
        var ch := text[cursor'];
        IdTokenTurn(text, cursor', quoted, result, cursor' - cursor);
        cursor' := cursor' + 1;
        if EndsId(ch, quoted) {
          id := Clean(result);
          return;
        }
        if ch == QUOTE {
          quoted := true;
        } else {
          result := result + [ch];
        }
      }
      IdTokenEnds(text, quoted, result, cursor' - cursor);
      id := Clean(result);
    }

    static method ReadValueToken(text: Bytes, cursor: nat) returns (value: Bytes, cursor': nat)
      requires cursor <= |text|
      ensures cursor <= cursor' <= |text| && (value, cursor') == NextValue(text, cursor)
    {
      var result: Bytes := [];
      cursor' := cursor;
      ValueTokenAdvances(text[cursor..]);
      hide ValueToken, Clean;
      ghost var whole := ValueToken(text[cursor..]);
      while cursor' < |text|
        invariant cursor <= cursor' <= |text|
        invariant whole == Rest(result, cursor' - cursor, ValueToken(text[cursor'..]))
      {
        var ch := text[cursor'];
        ValueTokenTurn(text, cursor', result, cursor' - cursor);
        cursor' := cursor' + 1;
        if ch == LF {
          value := Clean(result);
          return;
        }
        result := result + [ch];
      }
      ValueTokenEnds(text, result, cursor' - cursor);
      value := Clean(result);
    }

    method ParseText(text: Bytes)
      modifies this
      ensures Value() == Parse(text)
    {
      entries := [];
      had_utf8_bom := BOM <= text;
      use_utf8_bom_on_save := had_utf8_bom;
      var cursor := if had_utf8_bom then 3 else 0;
      assert text[0..] == text;
      assert Parse(text).entries == ParseAt(text, cursor, []);
      hide NextId, NextValue, ParseAt, ParseFrom, Put;
      while cursor < |text|
        invariant cursor <= |text| && had_utf8_bom == use_utf8_bom_on_save == (BOM <= text)
        invariant ParseAt(text, cursor, entries) == Parse(text).entries
        decreases |text| - cursor
      {
        Turn(text, cursor, entries);
        var id, behindId := ReadIdToken(text, cursor);
        if id == [] {
          cursor := behindId;
        } else {
          var value, behindValue := ReadValueToken(text, behindId);
          entries := Put(entries, id, value);
          cursor := behindValue;
        }
      }
      ParseNothing(text, entries);
    }

    method SerializeText() returns (out: Bytes)
      ensures out == Serialize(Value())
    {
      out := [];
      if use_utf8_bom_on_save {
        out := out + BOM + [CR, LF];
      }
      ghost var head := out;
      assert Serialize(Value()) == head + Lines(entries) && entries[0..] == entries;
      hide Lines, Line;
      for i := 0 to |entries|
        invariant out + Lines(entries[i..]) == head + Lines(entries)
      {
        LinesCut(entries, i);
        ghost var before := out;
        out := AppendLine(out, entries[i]);
        assert before + (Line(entries[i]) + Lines(entries[i + 1..])) == out + Lines(entries[i + 1..]);
      }
      NoLines(entries);
      assert out + [] == out;
    }

    static method AppendLine(text: Bytes, e: Entry) returns (out: Bytes)
      ensures out == text + Line(e)
    {
      out := text;
      var multiWord := SPACE in e.id;
      if multiWord { out := out + [QUOTE]; }
      out := out + e.id;
      if multiWord { out := out + [QUOTE]; }
      out := out + [SPACE] + e.value + [CR, LF];
    }

    // The position of the entry, or the length.
    method FindEntry(itemId: Bytes) returns (k: nat)
      ensures k == Find(entries, itemId)
    {
      var lowered := Lower(itemId);
      k := 0;
      while k < |entries| && Lower(entries[k].id) != lowered
        invariant k <= |entries| && forall i | 0 <= i < k :: !SameName(entries[i].id, itemId)
      {
        k := k + 1;
      }
      FindIs(entries, itemId, k);
    }

    method UpdateEntry(itemId: Bytes, comment: Bytes) returns (ok: bool)
      modifies this
      ensures (Value(), ok) == Update(old(Value()), itemId, comment)
    {
      var id := Trim(itemId);
      if id == [] { return false; }
      var value := Trim(StripCR(comment));
      var existing := FindEntry(id);
      if value == [] {
        if existing < |entries| {
          entries := entries[..existing] + entries[existing + 1..];
        }
        return true;
      }
      if existing < |entries| {
        entries := entries[existing := entries[existing].(value := value)];
      } else {
        entries := Put(entries, id, value);
      }
      if NonAscii(id) || NonAscii(value) {
        use_utf8_bom_on_save := true;
      }
      return true;
    }

    method ReadComment(itemId: Bytes) returns (r: Option<Bytes>)
      ensures r == Lookup(Value(), itemId)
    {
      var k := FindEntry(itemId);
      r := if k < |entries| then Some(ForDisplay(entries[k].value)) else None;
    }
  }
}
