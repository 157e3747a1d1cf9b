/** tokenizeLine: the command line of the Global manager cut into tokens, with
    two kinds of quotes and backslash escapes. `space` says which characters
    are white space. */
module Tokenizer {
  import opened Wrappers

  type Space = char -> bool

  predicate IsQuote(c: char) {
    c == '\'' || c == '"'
  }

  /** The character after a backslash that the backslash makes literal. */
  predicate Escapes(space: Space, quote: Option<char>, next: char) {
    next == '\\' || IsQuote(next) || (quote.None? && space(next)) || quote == Some(next)
  }

  datatype Scan = Scan(tokens: seq<string>, token: string, quote: Option<char>, started: bool)

  const START := Scan([], "", None, false)

  function Add(st: Scan, c: char): Scan {
    st.(token := st.token + [c], started := true)
  }

  function One(space: Space, st: Scan, c: char): Scan
  {
    if st.quote.Some? then
      (if c == st.quote.value then st.(quote := None, started := true) else Add(st, c))
    else if IsQuote(c) then st.(quote := Some(c), started := true)
    else if space(c) then
      (if st.started then st.(tokens := st.tokens + [st.token], token := "", started := false) else st)
    else Add(st, c)
  }

  function Close(st: Scan): Result<seq<string>, string> {
    if st.quote.Some? then Err("unmatched quote in command line")
    else Ok(if st.started then st.tokens + [st.token] else st.tokens)
  }

  function Read(space: Space, st: Scan, s: string): Result<seq<string>, string>
    decreases |s|
  {
    if s == "" then Close(st)
    else if s[0] == '\\' then
      (if |s| > 1 && Escapes(space, st.quote, s[1]) then Read(space, Add(st, s[1]), s[2..])
       else Read(space, Add(st, '\\'), s[1..]))
    else Read(space, One(space, st, s[0]), s[1..])
  }

  method TokenizeLine(space: Space, line: string) returns (r: Result<seq<string>, string>)
    ensures r == Read(space, START, line)
  {
    var tokens: seq<string>, token, started := [], "", false;
    var quote: Option<char> := None;
    var i := 0;
    assert line[0..] == line;
    while i < |line|
      invariant 0 <= i <= |line|
      invariant Read(space, START, line) == Read(space, Scan(tokens, token, quote, started), line[i..])
    {
      var ch := line[i];
      assert line[i..][0] == ch && line[i..][1..] == line[i + 1..];
      if ch == '\\' {
        if i + 1 < |line| && Escapes(space, quote, line[i + 1]) {
          assert line[i..][1] == line[i + 1] && line[i..][2..] == line[i + 2..];
          token := token + [line[i + 1]];
          i := i + 1;
        } else {
          token := token + "\\";
        }
        started := true;
      } else if quote.Some? {
        if ch == quote.value { quote := None; } else { token := token + [ch]; }
        started := true;
      } else if IsQuote(ch) {
        quote := Some(ch);
        started := true;
      } else if space(ch) {
        if started {
          tokens := tokens + [token];
          token, started := "", false;
        }
      } else {
        token, started := token + [ch], true;
      }
      i := i + 1;
    }
    if quote.Some? {
      return Err("unmatched quote in command line");
    }
    if started {
      tokens := tokens + [token];
    }
    r := Ok(tokens);
  }

  /******* Ways to write a list of tokens *******/

  /** Inside quotes: a raw character, one after a backslash, or a backslash that escapes nothing. */
  datatype Piece = Raw(c: char) | Marked(c: char) | LoneInside

  /** A stretch of a token: a bare character, an escaped one, a backslash that
      escapes nothing, or a quoted text. */
  datatype Part = Bare(c: char) | Escaped(c: char) | Lone | Quoted(mark: char, pieces: seq<Piece>)

  /** A token written as parts, after the white space in front of it. */
  datatype Word = Word(gap: string, parts: seq<Part>)

  function WritePiece(p: Piece): string {
    match p
    case Raw(c) => [c]
    case Marked(c) => ['\\', c]
    case LoneInside => ['\\']
  }

  function TextOfPiece(p: Piece): string {
    match p
    case Raw(c) => [c]
    case Marked(c) => [c]
    case LoneInside => ['\\']
  }

  function WritePieces(pieces: seq<Piece>): string {
    if pieces == [] then "" else WritePiece(pieces[0]) + WritePieces(pieces[1..])
  }

  function TextOf(pieces: seq<Piece>): string {
    if pieces == [] then "" else TextOfPiece(pieces[0]) + TextOf(pieces[1..])
  }

  /** The piece may stand there, given what is written after it. */
  predicate PieceFits(mark: char, p: Piece, after: string) {
    match p
    case Raw(c) => c != mark && c != '\\'
    case Marked(c) => c == '\\' || IsQuote(c)
    case LoneInside => after != "" && after[0] != '\\' && !IsQuote(after[0])
  }

  predicate PiecesFit(mark: char, pieces: seq<Piece>) {
    pieces == [] || (PieceFits(mark, pieces[0], WritePieces(pieces[1..]) + [mark]) && PiecesFit(mark, pieces[1..]))
  }

  function WritePart(p: Part): string {
    match p
    case Bare(c) => [c]
    case Escaped(c) => ['\\', c]
    case Lone => ['\\']
    case Quoted(mark, pieces) => [mark] + (WritePieces(pieces) + [mark])
  }

  function ReadsAs(p: Part): string {
    match p
    case Bare(c) => [c]
    case Escaped(c) => [c]
    case Lone => ['\\']
    case Quoted(_, pieces) => TextOf(pieces)
  }

  predicate PartFits(space: Space, p: Part, after: string) {
    match p
    case Bare(c) => c != '\\' && !IsQuote(c) && !space(c)
    case Escaped(c) => c == '\\' || IsQuote(c) || space(c)
    case Lone => after == "" || !(after[0] == '\\' || IsQuote(after[0]) || space(after[0]))
    case Quoted(mark, pieces) => IsQuote(mark) && PiecesFit(mark, pieces)
  }

  function WriteParts(parts: seq<Part>): string {
    if parts == [] then "" else WritePart(parts[0]) + WriteParts(parts[1..])
  }

  function TokenOf(parts: seq<Part>): string {
    if parts == [] then "" else ReadsAs(parts[0]) + TokenOf(parts[1..])
  }

  predicate PartsFit(space: Space, parts: seq<Part>, after: string) {
    parts == [] || (PartFits(space, parts[0], WriteParts(parts[1..]) + after) && PartsFit(space, parts[1..], after))
  }

  function WriteWords(words: seq<Word>): string {
    if words == [] then "" else words[0].gap + (WriteParts(words[0].parts) + WriteWords(words[1..]))
  }

  function TokensOf(words: seq<Word>): seq<string> {
    if words == [] then [] else [TokenOf(words[0].parts)] + TokensOf(words[1..])
  }

  predicate Blank(space: Space, gap: string) {
    gap == "" || (space(gap[0]) && gap[0] != '\\' && !IsQuote(gap[0]) && Blank(space, gap[1..]))
  }

  /** Words with white space between any two of them, before a blank end of line. */
  predicate WordsFit(space: Space, words: seq<Word>, trailing: string) {
    if words == [] then Blank(space, trailing)
    else
      && Blank(space, words[0].gap) && words[0].parts != []
      && PartsFit(space, words[0].parts, WriteWords(words[1..]) + trailing)
      && (|words| > 1 ==> words[1].gap != "")
      && WordsFit(space, words[1..], trailing)
  }

  lemma Regroup(a: string, b: string, c: string)
    ensures (a + b) + c == a + (b + c)
  {
  }

  lemma ReadFirst(space: Space, st: Scan, c: char, rest: string)
    requires c != '\\'
    ensures Read(space, st, [c] + rest) == Read(space, One(space, st, c), rest)
  {
    assert ([c] + rest)[1..] == rest;
  }

  lemma ReadEscape(space: Space, st: Scan, c: char, rest: string)
    requires Escapes(space, st.quote, c)
    ensures Read(space, st, ['\\', c] + rest) == Read(space, Add(st, c), rest)
  {
    assert (['\\', c] + rest)[2..] == rest;
  }

  lemma ReadLone(space: Space, st: Scan, rest: string)
    requires rest == "" || !Escapes(space, st.quote, rest[0])
    ensures Read(space, st, ['\\'] + rest) == Read(space, Add(st, '\\'), rest)
  {
    assert (['\\'] + rest)[1..] == rest;
  }

  lemma ReadPiece(space: Space, st: Scan, p: Piece, after: string, rest: string)
    requires st.quote.Some? && st.started && IsQuote(st.quote.value) && after != "" && PieceFits(st.quote.value, p, after)
    ensures Read(space, st, WritePiece(p) + (after + rest)) == Read(space, st.(token := st.token + TextOfPiece(p)), after + rest)
  {
    assert (after + rest)[0] == after[0];
    match p
    case Raw(c) => ReadFirst(space, st, c, after + rest);
    case Marked(c) => ReadEscape(space, st, c, after + rest);
    case LoneInside => ReadLone(space, st, after + rest);
  }

  lemma {:induction false} ReadPieces(space: Space, st: Scan, pieces: seq<Piece>, rest: string)
    requires st.quote.Some? && st.started && IsQuote(st.quote.value) && PiecesFit(st.quote.value, pieces)
    ensures Read(space, st, WritePieces(pieces) + [st.quote.value] + rest)
            == Read(space, st.(token := st.token + TextOf(pieces), quote := None), rest)
    decreases |pieces|
  {
    var mark := st.quote.value;
    if pieces == [] {
      assert WritePieces(pieces) + [mark] + rest == [mark] + rest && st.token + "" == st.token;
      ReadFirst(space, st, mark, rest);
    } else {
      var p, later := pieces[0], pieces[1..];
      var after := WritePieces(later) + [mark];
      assert WritePieces(pieces) + [mark] + rest == WritePiece(p) + (after + rest);
      ReadPiece(space, st, p, after, rest);
      ReadPieces(space, st.(token := st.token + TextOfPiece(p)), later, rest);
      Regroup(st.token, TextOfPiece(p), TextOf(later));
    }
  }

  lemma ReadPart(space: Space, st: Scan, p: Part, rest: string)
    requires st.quote.None? && PartFits(space, p, rest)
    ensures Read(space, st, WritePart(p) + rest) == Read(space, st.(token := st.token + ReadsAs(p), started := true), rest)
  {
    match p
    case Bare(c) => ReadFirst(space, st, c, rest);
    case Escaped(c) => ReadEscape(space, st, c, rest);
    case Lone => ReadLone(space, st, rest);
    case Quoted(mark, pieces) => ReadQuoted(space, st, mark, pieces, rest);
  }

  lemma ReadQuoted(space: Space, st: Scan, mark: char, pieces: seq<Piece>, rest: string)
    requires st.quote.None? && IsQuote(mark) && PiecesFit(mark, pieces)
    ensures Read(space, st, WritePart(Quoted(mark, pieces)) + rest)
            == Read(space, st.(token := st.token + TextOf(pieces), started := true), rest)
  {
    var inside := st.(quote := Some(mark), started := true);
    var tail := WritePieces(pieces) + [mark] + rest;
    Regroup([mark], WritePieces(pieces) + [mark], rest);
    ReadFirst(space, st, mark, tail);
    ReadPieces(space, inside, pieces, rest);
  }

  lemma {:induction false} ReadParts(space: Space, st: Scan, parts: seq<Part>, rest: string)
    requires st.quote.None? && PartsFit(space, parts, rest)
    ensures Read(space, st, WriteParts(parts) + rest)
            == Read(space, st.(token := st.token + TokenOf(parts), started := st.started || parts != []), rest)
    decreases |parts|
  {
    if parts == [] {
      assert WriteParts(parts) + rest == rest && st.token + "" == st.token;
    } else {
      var p, later := parts[0], parts[1..];
      ReadPart(space, st, p, WriteParts(later) + rest);
      Regroup(WritePart(p), WriteParts(later), rest);
      ReadParts(space, st.(token := st.token + ReadsAs(p), started := true), later, rest);
      Regroup(st.token, ReadsAs(p), TokenOf(later));
    }
  }

  /** The state after white space: a started token is done. */
  function Parted(st: Scan): Scan {
    if st.started then Scan(st.tokens + [st.token], "", None, false) else st
  }

  lemma {:induction false} ReadGap(space: Space, st: Scan, gap: string, rest: string)
    requires st.quote.None? && Blank(space, gap) && gap != ""
    ensures Read(space, st, gap + rest) == Read(space, Parted(st), rest)
    decreases |gap|
  {
    var tail := gap[1..] + rest;
    assert gap + rest == [gap[0]] + tail;
    ReadFirst(space, st, gap[0], tail);
    if |gap| > 1 {
      ReadGap(space, Parted(st), gap[1..], rest);
    } else {
      assert tail == rest;
    }
  }

  lemma ReadWord(space: Space, st: Scan, w: Word, rest: string)
    requires st.quote.None? && (!st.started ==> st.token == "") && (st.started ==> w.gap != "")
    requires Blank(space, w.gap) && w.parts != [] && PartsFit(space, w.parts, rest)
    ensures Read(space, st, w.gap + (WriteParts(w.parts) + rest))
            == Read(space, Parted(st).(token := TokenOf(w.parts), started := true), rest)
  {
    var body := WriteParts(w.parts) + rest;
    if w.gap != "" {
      ReadGap(space, st, w.gap, body);
    } else {
      assert w.gap + body == body;
    }
    ReadParts(space, Parted(st), w.parts, rest);
    assert Parted(st).token + TokenOf(w.parts) == TokenOf(w.parts);
  }

  lemma {:induction false} ReadWords(space: Space, st: Scan, words: seq<Word>, trailing: string)
    requires st.quote.None? && (!st.started ==> st.token == "")
    requires WordsFit(space, words, trailing) && (st.started && words != [] ==> words[0].gap != "")
    ensures Read(space, st, WriteWords(words) + trailing) == Ok(Parted(st).tokens + TokensOf(words))
    decreases |words|
  {
    if words == [] {
      assert WriteWords(words) + trailing == trailing && Parted(st).tokens + [] == Parted(st).tokens;
      if trailing != "" {
        ReadGap(space, st, trailing, "");
        assert trailing + "" == trailing;
      }
    } else {
      var w, later := words[0], words[1..];
      Regroup(w.gap, WriteParts(w.parts) + WriteWords(later), trailing);
      Regroup(WriteParts(w.parts), WriteWords(later), trailing);
      ReadWord(space, st, w, WriteWords(later) + trailing);
      ReadWords(space, Parted(st).(token := TokenOf(w.parts), started := true), later, trailing);
      TokensStep(Parted(st).tokens, words);
    }
  }

  lemma TokensStep(tokens: seq<string>, words: seq<Word>)
    requires words != []
    ensures tokens + [TokenOf(words[0].parts)] + TokensOf(words[1..]) == tokens + TokensOf(words)
  {
  }

  /** However a list of tokens is written - bare, escaped, quoted, or pieced
      together, with any white space around - it is read back as that list. */
  lemma WrittenIsRead(space: Space, words: seq<Word>, trailing: string)
    requires WordsFit(space, words, trailing)
    ensures Read(space, START, WriteWords(words) + trailing) == Ok(TokensOf(words))
  {
    ReadWords(space, START, words, trailing);
    assert Parted(START).tokens + TokensOf(words) == TokensOf(words);
  }

  /** One pair of double quotes round each token, single spaces between. */
  function QuoteAll(tokens: seq<string>): seq<Word> {
    seq(|tokens|, k requires 0 <= k < |tokens| => Word(if k == 0 then "" else " ", [Quoted('"', Guard(tokens[k]))]))
  }

  /** Inside double quotes they and the backslash are escaped. */
  function Guard(text: string): seq<Piece> {
    if text == "" then []
    else [if text[0] == '\\' || text[0] == '"' then Marked(text[0]) else Raw(text[0])] + Guard(text[1..])
  }

  lemma {:induction false} GuardMeans(text: string)
    ensures TextOf(Guard(text)) == text && PiecesFit('"', Guard(text))
  {
    if text != "" {
      GuardMeans(text[1..]);
      assert Guard(text)[1..] == Guard(text[1..]);
    }
  }

  lemma QuotedPart(space: Space, token: string, after: string)
    ensures PartsFit(space, [Quoted('"', Guard(token))], after) && TokenOf([Quoted('"', Guard(token))]) == token
  {
    GuardMeans(token);
    var parts := [Quoted('"', Guard(token))];
    assert parts[1..] == [] && PartsFit(space, [], after) && token + "" == token;
  }

  lemma OneSpace(space: Space)
    requires space(' ')
    ensures Blank(space, " ") && Blank(space, "")
  {
    assert " "[1..] == "";
  }

  lemma {:induction false} QuotedFit(space: Space, tokens: seq<string>, words: seq<Word>)
    requires space(' ') && |words| == |tokens|
    requires forall k :: 0 <= k < |tokens| ==> words[k].parts == [Quoted('"', Guard(tokens[k]))] && (words[k].gap == " " || words[k].gap == "")
    requires forall k :: 0 < k < |tokens| ==> words[k].gap == " "
    ensures WordsFit(space, words, "") && TokensOf(words) == tokens
  {
    if tokens != [] {
      QuotedFit(space, tokens[1..], words[1..]);
      QuotedPart(space, tokens[0], WriteWords(words[1..]) + "");
      OneSpace(space);
    }
  }

  /** Every list of tokens, the empty ones included, survives quoting. */
  lemma QuotingRoundTrip(space: Space, tokens: seq<string>)
    requires space(' ')
    ensures Read(space, START, WriteWords(QuoteAll(tokens))) == Ok(tokens)
  {
    var words := QuoteAll(tokens);
    QuotedFit(space, tokens, words);
    WrittenIsRead(space, words, "");
    assert WriteWords(words) + "" == WriteWords(words);
  }

  function Raws(text: string): seq<Piece> {
    if text == "" then [] else [Raw(text[0])] + Raws(text[1..])
  }

  lemma {:induction false} RawsFit(mark: char, text: string)
    requires mark !in text && '\\' !in text
    ensures PiecesFit(mark, Raws(text)) && WritePieces(Raws(text)) == text && TextOf(Raws(text)) == text
  {
    if text != "" {
      assert text == [text[0]] + text[1..];
      RawsFit(mark, text[1..]);
      assert Raws(text)[1..] == Raws(text[1..]);
    }
  }

  /** Either mark quotes: everything between two of them, the other one and
      white space included, is one token as it stands. */
  lemma EitherMarkQuotes(space: Space, mark: char, text: string)
    requires mark in {'\'', '"'} && mark !in text && '\\' !in text
    ensures Read(space, START, [mark] + text + [mark]) == Ok([text])
  {
    var line := [mark] + text + [mark];
    RawsFit(mark, text);
    ReadQuoted(space, START, mark, Raws(text), "");
    assert WritePart(Quoted(mark, Raws(text))) == line && line + "" == line;
    var done := START.(token := START.token + text, started := true);
    assert Read(space, done, "") == Close(done) && START.token + text == text;
    assert [] + [text] == [text];
  }

  /******* And no others *******/

  /** The rest of a quotation that is closed: its pieces, and what follows the closing mark. */
  lemma {:induction false} QuotationIsWritten(space: Space, st: Scan, s: string) returns (pieces: seq<Piece>, rest: string)
    requires st.quote.Some? && st.started && IsQuote(st.quote.value) && Read(space, st, s).Ok?
    ensures s == WritePieces(pieces) + [st.quote.value] + rest && PiecesFit(st.quote.value, pieces)
    decreases |s|
  {
    var mark := st.quote.value;
    if s[0] == mark {
      pieces, rest := [], s[1..];
    } else {
      var p, next;
      if s[0] != '\\' {
        p, next := Raw(s[0]), One(space, st, s[0]);
      } else if |s| > 1 && Escapes(space, st.quote, s[1]) {
        p, next := Marked(s[1]), Add(st, s[1]);
      } else {
        p, next := LoneInside, Add(st, '\\');
      }
      var later;
      later, rest := QuotationIsWritten(space, next, s[|WritePiece(p)|..]);
      pieces := [p] + later;
      assert s == WritePiece(p) + s[|WritePiece(p)|..];
      assert (WritePieces(later) + [mark])[0] == s[|WritePiece(p)|];
      PieceInFront(mark, p, later, rest);
    }
  }

  lemma PieceInFront(mark: char, p: Piece, later: seq<Piece>, rest: string)
    requires PiecesFit(mark, later) && PieceFits(mark, p, WritePieces(later) + [mark])
    ensures PiecesFit(mark, [p] + later)
    ensures WritePiece(p) + (WritePieces(later) + [mark] + rest) == WritePieces([p] + later) + [mark] + rest
  {
    assert ([p] + later)[1..] == later;
  }

  /** How a line may go on after `st`: parts of the current token, further words, and blanks. */
  datatype Spelling = Spelling(parts: seq<Part>, words: seq<Word>, trailing: string)

  ghost predicate Spells(space: Space, s: string, sp: Spelling) {
    && s == WriteParts(sp.parts) + (WriteWords(sp.words) + sp.trailing)
    && PartsFit(space, sp.parts, WriteWords(sp.words) + sp.trailing)
    && WordsFit(space, sp.words, sp.trailing)
    && (sp.words != [] ==> sp.words[0].gap != "")
  }

  lemma SpellPart(space: Space, s: string, p: Part, rest: string, sp: Spelling)
    requires s == WritePart(p) + rest && Spells(space, rest, sp) && PartFits(space, p, rest)
    ensures Spells(space, s, sp.(parts := [p] + sp.parts))
  {
    var parts := [p] + sp.parts;
    assert parts[1..] == sp.parts;
    Regroup(WritePart(p), WriteParts(sp.parts), WriteWords(sp.words) + sp.trailing);
  }

  /** A blank in front: it ends the current token. */
  function AfterBlank(c: char, sp: Spelling): Spelling {
    if sp.parts != [] then Spelling([], [Word([c], sp.parts)] + sp.words, sp.trailing)
    else if sp.words != [] then Spelling([], [sp.words[0].(gap := [c] + sp.words[0].gap)] + sp.words[1..], sp.trailing)
    else Spelling([], [], [c] + sp.trailing)
  }

  lemma SpellBlank(space: Space, c: char, rest: string, sp: Spelling)
    requires Spells(space, rest, sp) && space(c) && c != '\\' && !IsQuote(c)
    ensures Spells(space, [c] + rest, AfterBlank(c, sp))
  {
    var sp' := AfterBlank(c, sp);
    assert ([c] + sp.trailing)[1..] == sp.trailing;
    if sp.parts != [] {
      assert sp'.words[1..] == sp.words && Blank(space, [c]) by { assert [c][1..] == ""; }
      Regroup(WriteParts(sp.parts), WriteWords(sp.words), sp.trailing);
      Regroup([c], WriteParts(sp.parts) + WriteWords(sp.words), sp.trailing);
    } else if sp.words != [] {
      var w := sp.words[0];
      assert sp'.words[1..] == sp.words[1..] && ([c] + w.gap)[1..] == w.gap;
      Regroup([c], w.gap, WriteParts(w.parts) + WriteWords(sp.words[1..]));
      Regroup([c], WriteWords(sp.words), sp.trailing);
    } else {
      assert WriteWords([]) + ([c] + sp.trailing) == [c] + (WriteWords([]) + sp.trailing);
    }
    assert WriteParts([]) + (WriteWords(sp'.words) + sp'.trailing) == WriteWords(sp'.words) + sp'.trailing;
    assert WriteParts(sp.parts) + (WriteWords(sp.words) + sp.trailing) == rest;
    if sp.parts == [] { assert WriteWords(sp.words) + sp.trailing == rest; }
  }

  /** Every line that is read without error is spelled. */
  lemma {:induction false} LineIsSpelled(space: Space, st: Scan, s: string) returns (sp: Spelling)
    requires st.quote.None? && Read(space, st, s).Ok?
    ensures Spells(space, s, sp)
    decreases |s|
  {
    if s == "" {
      sp := Spelling([], [], "");
    } else if s[0] == '\\' && |s| > 1 && Escapes(space, st.quote, s[1]) {
      var later := LineIsSpelled(space, Add(st, s[1]), s[2..]);
      sp := later.(parts := [Escaped(s[1])] + later.parts);
      SpellPart(space, s, Escaped(s[1]), s[2..], later);
    } else if s[0] == '\\' {
      var later := LineIsSpelled(space, Add(st, '\\'), s[1..]);
      sp := later.(parts := [Lone] + later.parts);
      SpellPart(space, s, Lone, s[1..], later);
    } else if IsQuote(s[0]) {
      var inside := One(space, st, s[0]);
      var pieces, rest := QuotationIsWritten(space, inside, s[1..]);
      ReadPieces(space, inside, pieces, rest);
      var later := LineIsSpelled(space, inside.(token := inside.token + TextOf(pieces), quote := None), rest);
      var p := Quoted(s[0], pieces);
      Regroup([s[0]], WritePieces(pieces) + [s[0]], rest);
      assert s == [s[0]] + s[1..];
      sp := later.(parts := [p] + later.parts);
      SpellPart(space, s, p, rest, later);
    } else if space(s[0]) {
      var later := LineIsSpelled(space, One(space, st, s[0]), s[1..]);
      sp := AfterBlank(s[0], later);
      assert s == [s[0]] + s[1..];
      SpellBlank(space, s[0], s[1..], later);
    } else {
      var later := LineIsSpelled(space, One(space, st, s[0]), s[1..]);
      sp := later.(parts := [Bare(s[0])] + later.parts);
      SpellPart(space, s, Bare(s[0]), s[1..], later);
    }
  }

  ghost predicate IsWritten(space: Space, s: string, words: seq<Word>, trailing: string) {
    WordsFit(space, words, trailing) && s == WriteWords(words) + trailing
  }

  /** A line is read without error exactly if it is a list of tokens so
      written, and then it is read as that list. */
  lemma ReadsIffWritten(space: Space, s: string, tokens: seq<string>)
    ensures Read(space, START, s) == Ok(tokens) <==>
            exists words, trailing :: IsWritten(space, s, words, trailing) && TokensOf(words) == tokens
  {
    forall words, trailing | IsWritten(space, s, words, trailing) ensures Read(space, START, s) == Ok(TokensOf(words)) {
      WrittenIsRead(space, words, trailing);
    }
    if Read(space, START, s).Ok? {
      var sp := LineIsSpelled(space, START, s);
      var words := if sp.parts == [] then sp.words else [Word("", sp.parts)] + sp.words;
      FirstWord(space, s, sp);
      assert IsWritten(space, s, words, sp.trailing);
    }
  }

  lemma FirstWord(space: Space, s: string, sp: Spelling)
    requires Spells(space, s, sp)
    ensures IsWritten(space, s, if sp.parts == [] then sp.words else [Word("", sp.parts)] + sp.words, sp.trailing)
  {
    if sp.parts == [] {
      assert WriteParts([]) + (WriteWords(sp.words) + sp.trailing) == WriteWords(sp.words) + sp.trailing;
    } else {
      var words := [Word("", sp.parts)] + sp.words;
      assert words[1..] == sp.words;
      assert WriteWords(words) == WriteParts(sp.parts) + WriteWords(sp.words);
      Regroup(WriteParts(sp.parts), WriteWords(sp.words), sp.trailing);
    }
  }

  /******* The only error *******/

  /** The quotation open after `s`. */
  function OpenAfter(space: Space, quote: Option<char>, s: string): Option<char>
    decreases |s|
  {
    if s == "" then quote
    else if s[0] == '\\' then OpenAfter(space, quote, if |s| > 1 && Escapes(space, quote, s[1]) then s[2..] else s[1..])
    else if quote == Some(s[0]) then OpenAfter(space, None, s[1..])
    else if quote.None? && IsQuote(s[0]) then OpenAfter(space, Some(s[0]), s[1..])
    else OpenAfter(space, quote, s[1..])
  }

  /** Reading fails exactly when a quotation is left open; with
      ReadsIffWritten, exactly the lines that are no list of tokens leave one open. */
  lemma {:induction false} ErrorIffLeftOpen(space: Space, st: Scan, s: string)
    ensures Read(space, st, s).Err? <==> OpenAfter(space, st.quote, s).Some?
    decreases |s|
  {
    if s != "" {
      if s[0] == '\\' {
        if |s| > 1 && Escapes(space, st.quote, s[1]) {
          ErrorIffLeftOpen(space, Add(st, s[1]), s[2..]);
        } else {
          ErrorIffLeftOpen(space, Add(st, '\\'), s[1..]);
        }
      } else {
        ErrorIffLeftOpen(space, One(space, st, s[0]), s[1..]);
      }
    }
  }
}
