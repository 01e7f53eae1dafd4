/** Single-quoting for a shell, and the word splitter that undoes it. */
module Quoting {
  import opened Prelude

  /** Wrap in single quotes; a quote inside becomes close, escaped quote, reopen. */
  function ShQuote(s: string): string {
    "'" + Escape(s) + "'"
  }

  function Escape(s: string): string {
    if s == [] then [] else (if s[0] == '\'' then "'\\''" else [s[0]]) + Escape(s[1..])
  }

  function Join(words: seq<string>): string {
    if words == [] then [] else if |words| == 1 then ShQuote(words[0]) else ShQuote(words[0]) + " " + Join(words[1..])
  }

  // ---------------------------------------------------------------------------
  // The splitter

  datatype Quote = Bare | Single | Double

  /** What the splitter has so far: finished words, the word under way, and the open quote. */
  datatype Scan = Scan(words: seq<string>, word: string, inWord: bool, quote: Quote)

  predicate IsSpace(c: char) {
    c == ' ' || '\t' <= c <= '\r' || c == '\U{00A0}' || c == '\U{1680}' || '\U{2000}' <= c <= '\U{200A}' ||
    c == '\U{2028}' || c == '\U{2029}' || c == '\U{202F}' || c == '\U{205F}' || c == '\U{3000}' || c == '\U{FEFF}'
  }

  /** A backslash that escapes the next character, and so consumes two. */
  predicate Escapes(st: Scan, s: string)
    requires s != []
  {
    s[0] == '\\' && |s| > 1 && (st.quote.Bare? || (st.quote.Double? && (s[1] == '"' || s[1] == '\\')))
  }

  function Step(st: Scan, c: char): Scan {
    match st.quote
    case Single => if c == '\'' then st.(quote := Bare) else st.(word := st.word + [c])
    case Double => if c == '"' then st.(quote := Bare) else st.(word := st.word + [c])
    case Bare =>
      if c == '\'' then st.(quote := Single, inWord := true)
      else if c == '"' then st.(quote := Double, inWord := true)
      else if IsSpace(c) then Scan(if st.inWord then st.words + [st.word] else st.words, "", false, Bare)
      else st.(word := st.word + [c], inWord := true)
  }

  function ScanAll(st: Scan, s: string): Scan
    decreases |s|
  {
    if s == [] then st
    else if Escapes(st, s) then ScanAll(st.(word := st.word + [s[1]], inWord := true), s[2..])
    else ScanAll(Step(st, s[0]), s[1..])
  }

  /** The finished words and the one under way. */
  function AllWords(st: Scan): seq<string> {
    if st.inWord then st.words + [st.word] else st.words
  }

  function Finish(st: Scan): Result<seq<string>> {
    var words := AllWords(st);
    if !st.quote.Bare? then Err("unterminated quote")
    else if words == [] then Err("blank")
    else Ok(words)
  }

  const Start := Scan([], "", false, Bare)

  function Split(command: string): Result<seq<string>> {
    Finish(ScanAll(Start, command))
  }

  /** Outside a word nothing is pending; inside a quote a word is under way. */
  predicate Proper(st: Scan) {
    (!st.inWord ==> st.word == "") && (!st.quote.Bare? ==> st.inWord)
  }

  /** The splitter as an index loop over the characters. */
  method EditorArgv(command: string) returns (r: Result<seq<string>>)
    ensures r == Split(command)
  {
    var words: seq<string>, word: string, inWord, quote := [], "", false, Bare;
    var i := 0;
    assert command[0..] == command;
    while i < |command|
      invariant 0 <= i <= |command| && Proper(Scan(words, word, inWord, quote))
      invariant ScanAll(Start, command) == ScanAll(Scan(words, word, inWord, quote), command[i..])
    {
      var c := command[i];
      ghost var st, rest := Scan(words, word, inWord, quote), command[i..];
      assert rest[0] == c && rest[1..] == command[i + 1..] && (|rest| > 1 ==> rest[2..] == command[i + 2..]);
      if quote.Single? {
        if c == '\'' {
          quote := Bare;
        } else {
          word := word + [c];
        }
      } else if quote.Double? {
        if c == '"' {
          quote := Bare;
        } else if c == '\\' && i + 1 < |command| && (command[i + 1] == '"' || command[i + 1] == '\\') {
          i := i + 1;
          word := word + [command[i]];
        } else {
          word := word + [c];
        }
      } else if c == '\'' || c == '"' {
        quote := if c == '\'' then Single else Double;
        inWord := true;
      } else if c == '\\' && i + 1 < |command| {
        i := i + 1;
        word := word + [command[i]];
        inWord := true;
      } else if IsSpace(c) {
        if inWord {
          words := words + [word];
        }
        word := "";
        inWord := false;
      } else {
        word := word + [c];
        inWord := true;
      }
      i := i + 1;
    }
    assert command[|command|..] == "";
    if !quote.Bare? {
      return Err("unterminated quote");
    }
    if inWord {
      words := words + [word];
    }
    if words == [] {
      return Err("blank");
    }
    return Ok(words);
  }

  // ---------------------------------------------------------------------------
  // Round trip

  /** Inside single quotes, an escaped text and its closing quote add exactly the text. */
  lemma {:induction false} ScanEscaped(words: seq<string>, word: string, s: string, rest: string)
    ensures ScanAll(Scan(words, word, true, Single), Escape(s) + "'" + rest) ==
            ScanAll(Scan(words, word + s, true, Bare), rest)
    decreases |s|
  {
    var all := Escape(s) + "'" + rest;
    if s == [] {
      assert all[1..] == rest && word + s == word;
    } else {
      var tail := Escape(s[1..]) + "'" + rest;
      assert word + s == word + [s[0]] + s[1..];
      if s[0] == '\'' {
        assert all == "'\\''" + tail;
        assert all[1..] == "\\''" + tail;
        assert all[1..][2..] == "'" + tail;
        assert all[1..][2..][1..] == tail;
        var st1 := Scan(words, word, true, Bare);
        var st2 := Scan(words, word + ['\''], true, Bare);
        assert ScanAll(Scan(words, word, true, Single), all) == ScanAll(st1, all[1..]);
        assert ScanAll(st1, all[1..]) == ScanAll(st2, all[1..][2..]);
        assert ScanAll(st2, all[1..][2..]) == ScanAll(Scan(words, word + ['\''], true, Single), tail);
      } else {
        assert all == [s[0]] + tail;
        assert all[1..] == tail;
      }
      ScanEscaped(words, word + [s[0]], s[1..], rest);
    }
  }

  /** Between words, a quoted text scans to exactly that text as the word under way. */
  lemma ScanQuoted(words: seq<string>, s: string, rest: string)
    ensures ScanAll(Scan(words, "", false, Bare), ShQuote(s) + rest) == ScanAll(Scan(words, s, true, Bare), rest)
  {
    var all := ShQuote(s) + rest;
    assert all == "'" + (Escape(s) + "'" + rest);
    assert all[1..] == Escape(s) + "'" + rest;
    ScanEscaped(words, "", s, rest);
    assert "" + s == s;
  }

  lemma {:induction false} ScanJoined(done: seq<string>, words: seq<string>)
    requires words != []
    ensures ScanAll(Scan(done, "", false, Bare), Join(words)) ==
            Scan(done + words[..|words| - 1], words[|words| - 1], true, Bare)
    decreases |words|
  {
    if |words| == 1 {
      ScanQuoted(done, words[0], "");
      assert ShQuote(words[0]) + "" == ShQuote(words[0]);
      assert done + words[..0] == done;
    } else {
      var rest := " " + Join(words[1..]);
      assert Join(words) == ShQuote(words[0]) + rest;
      ScanQuoted(done, words[0], rest);
      assert rest[1..] == Join(words[1..]);
      ScanJoined(done + [words[0]], words[1..]);
      assert done + [words[0]] + words[1..][..|words| - 2] == done + words[..|words| - 1];
    }
  }

  /** Any non-empty list of strings, quoted and joined with spaces, splits back into itself. */
  lemma QuoteSplitRoundTrip(words: seq<string>)
    requires words != []
    ensures Split(Join(words)) == Ok(words)
  {
    ScanJoined([], words);
    assert [] + words[..|words| - 1] + [words[|words| - 1]] == words;
  }

  /** Quoting never confuses two different lists. */
  lemma QuotingIsInjective(a: seq<string>, b: seq<string>)
    requires a != [] && b != [] && Join(a) == Join(b)
    ensures a == b
  {
    QuoteSplitRoundTrip(a);
    QuoteSplitRoundTrip(b);
  }

  // ---------------------------------------------------------------------------
  // What a command line means

  /** A character between double quotes: itself, one of the two escapes, or a backslash that escapes nothing. */
  datatype Mark = As(c: char) | Esc(c: char) | Slash(c: char)

  /** A piece of a word: a bare character, an escaped one, or a quoted text. */
  datatype Piece = Plain(c: char) | Escaped(c: char) | Literal(text: string) | Quoted(marks: seq<Mark>)

  predicate MarkOk(m: Mark) {
    match m
    case As(c) => c != '"' && c != '\\'
    case Esc(c) => c == '"' || c == '\\'
    case Slash(c) => c != '"' && c != '\\'
  }

  function MarkText(m: Mark): string {
    if m.As? then [m.c] else ['\\', m.c]
  }

  function MarkMeans(m: Mark): string {
    if m.Slash? then ['\\', m.c] else [m.c]
  }

  function MarksText(ms: seq<Mark>): string {
    if ms == [] then "" else MarkText(ms[0]) + MarksText(ms[1..])
  }

  function MarksMean(ms: seq<Mark>): string {
    if ms == [] then "" else MarkMeans(ms[0]) + MarksMean(ms[1..])
  }

  predicate PieceOk(p: Piece) {
    match p
    case Plain(c) => !IsSpace(c) && c != '\'' && c != '"' && c != '\\'
    case Escaped(c) => true
    case Literal(text) => '\'' !in text
    case Quoted(marks) => forall m :: m in marks ==> MarkOk(m)
  }

  function PieceText(p: Piece): string {
    match p
    case Plain(c) => [c]
    case Escaped(c) => ['\\', c]
    case Literal(text) => "'" + text + "'"
    case Quoted(marks) => "\"" + MarksText(marks) + "\""
  }

  function PieceMeans(p: Piece): string {
    match p
    case Plain(c) => [c]
    case Escaped(c) => [c]
    case Literal(text) => text
    case Quoted(marks) => MarksMean(marks)
  }

  predicate WordOk(ps: seq<Piece>) {
    ps != [] && forall p :: p in ps ==> PieceOk(p)
  }

  function WordText(ps: seq<Piece>): string {
    if ps == [] then "" else PieceText(ps[0]) + WordText(ps[1..])
  }

  function WordMeans(ps: seq<Piece>): string {
    if ps == [] then "" else PieceMeans(ps[0]) + WordMeans(ps[1..])
  }

  predicate Blank(s: string) {
    forall c :: c in s ==> IsSpace(c)
  }

  /** Words with whitespace before, between and after them. */
  function Line(pads: seq<string>, words: seq<seq<Piece>>): string
    requires |pads| == |words| + 1
  {
    if words == [] then pads[0] else pads[0] + WordText(words[0]) + Line(pads[1..], words[1..])
  }

  function Meanings(words: seq<seq<Piece>>): seq<string> {
    if words == [] then [] else [WordMeans(words[0])] + Meanings(words[1..])
  }

  predicate LineOk(pads: seq<string>, words: seq<seq<Piece>>) {
    && |pads| == |words| + 1 && (forall ps :: ps in words ==> WordOk(ps))
    && (forall pad :: pad in pads ==> Blank(pad)) && forall i :: 0 < i < |words| ==> pads[i] != ""
  }

  lemma {:induction false} ScanLiteral(words: seq<string>, word: string, text: string, rest: string)
    requires '\'' !in text
    ensures ScanAll(Scan(words, word, true, Single), text + "'" + rest) == ScanAll(Scan(words, word + text, true, Bare), rest)
    decreases |text|
  {
    var all := text + "'" + rest;
    if text == "" {
      assert all[1..] == rest && word + text == word;
    } else {
      assert all[1..] == text[1..] + "'" + rest && word + text == word + [text[0]] + text[1..];
      ScanLiteral(words, word + [text[0]], text[1..], rest);
    }
  }

  lemma ScanMark(words: seq<string>, word: string, m: Mark, rest: string)
    requires MarkOk(m)
    ensures ScanAll(Scan(words, word, true, Double), MarkText(m) + rest) == ScanAll(Scan(words, word + MarkMeans(m), true, Double), rest)
  {
    var all := MarkText(m) + rest;
    if m.As? {
      assert all[1..] == rest;
    } else if m.Esc? {
      assert all[2..] == rest;
    } else {
      assert all[1..] == [m.c] + rest && all[1..][1..] == rest;
      assert word + ['\\'] + [m.c] == word + MarkMeans(m);
      assert ScanAll(Scan(words, word, true, Double), all) == ScanAll(Scan(words, word + ['\\'], true, Double), all[1..]);
    }
  }

  lemma {:induction false} ScanMarks(words: seq<string>, word: string, ms: seq<Mark>, rest: string)
    requires forall m :: m in ms ==> MarkOk(m)
    ensures ScanAll(Scan(words, word, true, Double), MarksText(ms) + "\"" + rest) ==
            ScanAll(Scan(words, word + MarksMean(ms), true, Bare), rest)
    decreases |ms|
  {
    var all := MarksText(ms) + "\"" + rest;
    if ms == [] {
      assert all[1..] == rest && word + MarksMean(ms) == word;
    } else {
      assert ms[0] in ms;
      var tail := MarksText(ms[1..]) + "\"" + rest;
      assert all == MarkText(ms[0]) + tail;
      ScanMark(words, word, ms[0], tail);
      ScanMarks(words, word + MarkMeans(ms[0]), ms[1..], rest);
      assert word + MarksMean(ms) == word + MarkMeans(ms[0]) + MarksMean(ms[1..]);
    }
  }

  lemma ScanPiece(st: Scan, p: Piece, rest: string)
    requires PieceOk(p) && st.quote.Bare?
    ensures ScanAll(st, PieceText(p) + rest) == ScanAll(Scan(st.words, st.word + PieceMeans(p), true, Bare), rest)
  {
    var all := PieceText(p) + rest;
    match p
    case Plain(c) =>
      assert all[1..] == rest;
    case Escaped(c) =>
      assert all[2..] == rest;
    case Literal(text) =>
      assert all[1..] == text + "'" + rest;
      ScanLiteral(st.words, st.word, text, rest);
    case Quoted(marks) =>
      assert all[1..] == MarksText(marks) + "\"" + rest;
      ScanMarks(st.words, st.word, marks, rest);
  }

  lemma {:induction false} ScanWord(st: Scan, ps: seq<Piece>, rest: string)
    requires st.quote.Bare? && forall p :: p in ps ==> PieceOk(p)
    ensures ScanAll(st, WordText(ps) + rest) ==
            ScanAll(Scan(st.words, st.word + WordMeans(ps), st.inWord || ps != [], Bare), rest)
    decreases |ps|
  {
    if ps == [] {
      assert WordText(ps) + rest == rest && st.word + WordMeans(ps) == st.word;
    } else {
      assert ps[0] in ps;
      var tail := WordText(ps[1..]) + rest;
      assert WordText(ps) + rest == PieceText(ps[0]) + tail;
      ScanPiece(st, ps[0], tail);
      ScanWord(Scan(st.words, st.word + PieceMeans(ps[0]), true, Bare), ps[1..], rest);
      assert st.word + WordMeans(ps) == st.word + PieceMeans(ps[0]) + WordMeans(ps[1..]);
    }
  }

  lemma {:induction false} ScanBlank(st: Scan, pad: string, rest: string)
    requires Blank(pad) && st.quote.Bare? && Proper(st)
    ensures ScanAll(st, pad + rest) ==
            ScanAll(if pad == "" then st else Scan(AllWords(st), "", false, Bare), rest)
    decreases |pad|
  {
    if pad == "" {
      assert pad + rest == rest;
    } else {
      assert pad[0] in pad && (pad + rest)[1..] == pad[1..] + rest;
      ScanBlank(Step(st, pad[0]), pad[1..], rest);
    }
  }

  lemma ScanEnd(st: Scan)
    ensures ScanAll(st, "") == st
  {
  }

  lemma ScanPadded(st: Scan, pad: string, ps: seq<Piece>, rest: string)
    requires Blank(pad) && WordOk(ps) && st.quote.Bare? && Proper(st) && (st.inWord ==> pad != "")
    ensures ScanAll(st, pad + WordText(ps) + rest) == ScanAll(Scan(AllWords(st), WordMeans(ps), true, Bare), rest)
  {
    hide ScanAll, WordText, WordMeans;
    assert pad + WordText(ps) + rest == pad + (WordText(ps) + rest);
    ScanBlank(st, pad, WordText(ps) + rest);
    var next := Scan(AllWords(st), "", false, Bare);
    assert pad == "" ==> st == next;
    ScanWord(next, ps, rest);
    assert "" + WordMeans(ps) == WordMeans(ps);
  }

  lemma {:induction false} ScanLine(st: Scan, pads: seq<string>, words: seq<seq<Piece>>)
    requires LineOk(pads, words) && st.quote.Bare? && Proper(st) && (st.inWord && words != [] ==> pads[0] != "")
    ensures var end := ScanAll(st, Line(pads, words)); end.quote.Bare? && AllWords(end) == AllWords(st) + Meanings(words)
    decreases |words|
  {
    hide ScanAll, WordText, WordMeans, Blank, WordOk;
    assert pads[0] in pads;
    if words == [] {
      assert pads[0] + "" == pads[0];
      ScanBlank(st, pads[0], "");
      ScanEnd(st);
      ScanEnd(Scan(AllWords(st), "", false, Bare));
    } else {
      assert words[0] in words;
      ScanPadded(st, pads[0], words[0], Line(pads[1..], words[1..]));
      var now := Scan(AllWords(st), WordMeans(words[0]), true, Bare);
      assert LineOk(pads[1..], words[1..]);
      ScanLine(now, pads[1..], words[1..]);
      assert AllWords(now) + Meanings(words[1..]) == AllWords(st) + Meanings(words);
    }
  }

  /**
    Any words made of bare, escaped and quoted pieces, with any whitespace around and between them,
    split into what those pieces mean; whitespace alone is refused as blank.
  */
  lemma SplitGivesMeanings(pads: seq<string>, words: seq<seq<Piece>>)
    requires LineOk(pads, words)
    ensures Split(Line(pads, words)) == if words == [] then Err("blank") else Ok(Meanings(words))
  {
    ScanLine(Start, pads, words);
    assert AllWords(Start) + Meanings(words) == Meanings(words);
  }

  /** Words joined by single spaces. */
  function Spaced(words: seq<string>): string {
    if words == [] then "" else if |words| == 1 then words[0] else words[0] + " " + Spaced(words[1..])
  }

  /** Nothing in the word needs quoting. */
  predicate Simple(word: string) {
    word != "" && forall c :: c in word ==> !IsSpace(c) && c != '\'' && c != '"' && c != '\\'
  }

  lemma {:induction false} PlainWord(word: string) returns (ps: seq<Piece>)
    requires forall c :: c in word ==> !IsSpace(c) && c != '\'' && c != '"' && c != '\\'
    ensures |ps| == |word| && (forall p :: p in ps ==> PieceOk(p)) && WordText(ps) == WordMeans(ps) == word
  {
    if word == "" {
      ps := [];
    } else {
      assert word[0] in word;
      var rest := PlainWord(word[1..]);
      ps := [Plain(word[0])] + rest;
      assert ps[1..] == rest;
    }
  }

  lemma {:induction false} ScanSpaced(st: Scan, words: seq<string>)
    requires st.quote.Bare? && Proper(st) && words != [] && forall w :: w in words ==> Simple(w)
    ensures var end := ScanAll(st, (if st.inWord then " " else "") + Spaced(words));
      end.quote.Bare? && AllWords(end) == AllWords(st) + words
    decreases |words|
  {
    hide ScanAll, WordText, WordMeans;
    assert words[0] in words;
    var pad := if st.inWord then " " else "";
    var ps := PlainWord(words[0]);
    var now := Scan(AllWords(st), words[0], true, Bare);
    if |words| == 1 {
      ScanPadded(st, pad, ps, "");
      assert pad + words[0] + "" == pad + Spaced(words) && [words[0]] == words;
      ScanEnd(now);
    } else {
      var rest := " " + Spaced(words[1..]);
      ScanPadded(st, pad, ps, rest);
      assert pad + words[0] + rest == pad + Spaced(words);
      ScanSpaced(now, words[1..]);
      assert AllWords(now) + words[1..] == AllWords(st) + words;
    }
  }

  /** Words that need no quoting, joined by spaces, split into themselves. */
  lemma SimpleWordsSplit(words: seq<string>)
    requires words != [] && forall w :: w in words ==> Simple(w)
    ensures Split(Spaced(words)) == Ok(words)
  {
    ScanSpaced(Start, words);
    assert "" + Spaced(words) == Spaced(words) && AllWords(Start) + words == words;
  }

  // ---------------------------------------------------------------------------
  // When a command is refused

  /** The quote that is open after a text, whatever words it holds. */
  function OpenQuote(open: Quote, s: string): Quote
    decreases |s|
  {
    if s == "" then open
    else if s[0] == '\\' && |s| > 1 && (open.Bare? || (open.Double? && s[1] in "\"\\")) then OpenQuote(open, s[2..])
    else if open.Bare? then OpenQuote(if s[0] == '\'' then Single else if s[0] == '"' then Double else Bare, s[1..])
    else OpenQuote(if s[0] == (if open.Single? then '\'' else '"') then Bare else open, s[1..])
  }

  lemma {:induction false} ScanTracksQuote(st: Scan, s: string)
    ensures ScanAll(st, s).quote == OpenQuote(st.quote, s)
    decreases |s|
  {
    if s != "" {
      if Escapes(st, s) {
        ScanTracksQuote(st.(word := st.word + [s[1]], inWord := true), s[2..]);
      } else {
        ScanTracksQuote(Step(st, s[0]), s[1..]);
      }
    }
  }

  /** Something was read: a word is under way or finished, and that stays so. */
  lemma {:induction false} ScanKeepsWords(st: Scan, s: string)
    requires st.inWord || st.words != []
    ensures var end := ScanAll(st, s); end.inWord || end.words != []
    decreases |s|
  {
    if s != "" {
      if Escapes(st, s) {
        ScanKeepsWords(st.(word := st.word + [s[1]], inWord := true), s[2..]);
      } else {
        ScanKeepsWords(Step(st, s[0]), s[1..]);
      }
    }
  }

  lemma {:induction false} ScanNothing(s: string)
    ensures Blank(s) <==> ScanAll(Start, s) == Start
    ensures !Blank(s) ==> var end := ScanAll(Start, s); end.inWord || end.words != []
    decreases |s|
  {
    if s != "" {
      assert s[0] in s;
      if IsSpace(s[0]) {
        assert forall c :: c in s <==> c == s[0] || c in s[1..];
        ScanNothing(s[1..]);
      } else if Escapes(Start, s) {
        ScanKeepsWords(Start.(word := Start.word + [s[1]], inWord := true), s[2..]);
      } else {
        ScanKeepsWords(Step(Start, s[0]), s[1..]);
      }
    }
  }

  /** Exactly the commands that end inside a quote and those of whitespace alone are refused. */
  lemma SplitRefusesIff(command: string)
    ensures Split(command) == Err("unterminated quote") <==> !OpenQuote(Bare, command).Bare?
    ensures Split(command) == Err("blank") <==> Blank(command)
    ensures Split(command).Ok? <==> OpenQuote(Bare, command).Bare? && !Blank(command)
  {
    ScanTracksQuote(Start, command);
    ScanNothing(command);
    assert "unterminated quote"[0] != "blank"[0];
  }
}
