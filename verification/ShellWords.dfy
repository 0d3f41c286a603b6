/**
  Quoting an argument for a shell, scanning the first word of a command line back, and unwrapping
  the user command of a dispatcher. Strings are sequences of code points.
*/
module ShellWords {
  import opened Options

  predicate IsSpace(c: char) { c == ' ' || c == '\t' || c == '\n' || c == '\r' }

  predicate IsOperator(c: char) { c in ";|&<>()" }

  // A backslash inside double quotes escapes only these.
  predicate EscapesInDouble(c: char) { c in "$`\"\\\n" }

  // ---------- The scanner as a function ----------

  // Outside quotes; `word` is what the word holds so far.
  function ScanWord(s: string, started: bool, word: string): Option<string>
    decreases |s|
  {
    if s == "" then (if !started || word == "" then None else Some(word))
    else if IsSpace(s[0]) then (if started then Some(word) else ScanWord(s[1..], false, word))
    else if IsOperator(s[0]) then (if started then Some(word) else None)
    else if s[0] == '\'' then ScanSingle(s[1..], word)
    else if s[0] == '"' then ScanDouble(s[1..], word)
    else if s[0] == '\\' then (if |s| > 1 then ScanWord(s[2..], true, word + [s[1]]) else ScanWord(s[1..], true, word))
    else ScanWord(s[1..], true, word + [s[0]])
  }

  function ScanSingle(s: string, word: string): Option<string>
    decreases |s|
  {
    if s == "" then None
    else if s[0] == '\'' then ScanWord(s[1..], true, word)
    else ScanSingle(s[1..], word + [s[0]])
  }

  function ScanDouble(s: string, word: string): Option<string>
    decreases |s|
  {
    if s == "" then None
    else if s[0] == '"' then ScanWord(s[1..], true, word)
    else if s[0] == '\\' && |s| > 1 && EscapesInDouble(s[1]) then ScanDouble(s[2..], word + [s[1]])
    else ScanDouble(s[1..], word + [s[0]])
  }

  function Scan(s: string): Option<string> { ScanWord(s, false, "") }

  function Answer(r: Option<string>): (string, bool) {
    match r
    case None => ("", false)
    case Some(word) => (word, true)
  }

  // ---------- The scanner as it runs ----------

  // The loop over a single-quoted stretch; it stops at the closing quote or at the end.
  method ReadSingle(s: string, start: nat, before: string) returns (i: nat, word: string)
    requires start <= |s|
    ensures start <= i <= |s| && (i < |s| ==> s[i] == '\'')
    ensures ScanSingle(s[start..], before) == if i < |s| then ScanWord(s[i + 1..], true, word) else None
  {
    i, word := start, before;
    while i < |s| && s[i] != '\''
      invariant start <= i <= |s| && ScanSingle(s[start..], before) == ScanSingle(s[i..], word)
    {
      assert s[i..][1..] == s[i + 1..];
      word := word + [s[i]];
      i := i + 1;
    }
    assert i < |s| ==> s[i..][1..] == s[i + 1..];
  }

  // The loop over a double-quoted stretch.
  method ReadDouble(s: string, start: nat, before: string) returns (i: nat, word: string)
    requires start <= |s|
    ensures start <= i <= |s| && (i < |s| ==> s[i] == '"')
    ensures ScanDouble(s[start..], before) == if i < |s| then ScanWord(s[i + 1..], true, word) else None
  {
    i, word := start, before;
    while i < |s| && s[i] != '"'
      invariant start <= i <= |s| && ScanDouble(s[start..], before) == ScanDouble(s[i..], word)
    {
      assert s[i..][1..] == s[i + 1..];
      if s[i] == '\\' && i + 1 < |s| && EscapesInDouble(s[i + 1]) {
        assert s[i..][2..] == s[i + 2..];
        i := i + 1;
      }
      word := word + [s[i]];
      i := i + 1;
    }
    assert i < |s| ==> s[i..][1..] == s[i + 1..];
  }

  // The switch on a character that is neither a space nor an operator; `closed` is false when a
  // quote is left open.
  method ReadPiece(s: string, start: nat, before: string) returns (i: nat, word: string, closed: bool)
    requires start < |s| && !IsSpace(s[start]) && !IsOperator(s[start])
    ensures start < i <= |s|
    ensures forall started :: ScanWord(s[start..], started, before) == if closed then ScanWord(s[i..], true, word) else None
  {
    assert s[start..][1..] == s[start + 1..];
    i, word, closed := start + 1, before, true;
    match s[start]
    case '\'' =>
      i, word := ReadSingle(s, start + 1, before);
      closed := i < |s|;
      i := if closed then i + 1 else i;
    case '"' =>
      i, word := ReadDouble(s, start + 1, before);
      closed := i < |s|;
      i := if closed then i + 1 else i;
    case '\\' =>
      if start + 1 < |s| {
        assert s[start..][2..] == s[start + 2..];
        word := before + [s[start + 1]];
        i := start + 2;
      }
    case c =>
      word := before + [c];
  }

  method ScanFirstShellToken(s: string) returns (token: string, ok: bool)
    ensures (token, ok) == Answer(Scan(s))
  {
    var i := SkipSpaces(s);
    if i >= |s| {
      return "", false;
    }
    var word, started := "", false;
    while i < |s|
      invariant 0 <= i <= |s| && Scan(s) == ScanWord(s[i..], started, word)
      decreases |s| - i
    {
      assert s[i..][1..] == s[i + 1..];
      if IsSpace(s[i]) {
        if started {
          return word, true;
        }
        i := i + 1;
        continue;
      }
      if IsOperator(s[i]) {
        if started {
          return word, true;
        }
        return "", false;
      }
      var closed;
      i, word, closed := ReadPiece(s, i, word);
      if !closed {
        return "", false;
      }
      started := true;
    }
    if !started || word == "" {
      return "", false;
    }
    return word, true;
  }

  // The leading blanks.
  method SkipSpaces(s: string) returns (i: nat)
    ensures i <= |s| && Scan(s) == ScanWord(s[i..], false, "") && (i < |s| ==> !IsSpace(s[i]))
  {
    i := 0;
    while i < |s| && IsSpace(s[i])
      invariant i <= |s| && Scan(s) == ScanWord(s[i..], false, "")
    {
      assert s[i..][1..] == s[i + 1..];
      i := i + 1;
    }
  }

  // ---------- The printers ----------

  // strings.ReplaceAll(v, "'", escape).
  function Escaped(v: string, escape: string): string {
    if v == "" then "" else (if v[0] == '\'' then escape else [v[0]]) + Escaped(v[1..], escape)
  }

  // shellQuote and container commands close, escape and reopen; the dispatcher is printed with
  // Python's shlex.quote, which double-quotes the quote; the console quotes only when it must.
  datatype Printer = Posix | Shlex | Console

  predicate IsPlain(c: char) {
    'a' <= c <= 'z' || 'A' <= c <= 'Z' || '0' <= c <= '9' || c in "_./:@-="
  }

  predicate ShlexSafe(c: char) {
    'a' <= c <= 'z' || 'A' <= c <= 'Z' || '0' <= c <= '9' || c in "_@%+=:,./-"
  }

  predicate PrintsBare(p: Printer, v: string) {
    match p
    case Posix => false
    case Shlex => v != "" && forall c <- v :: ShlexSafe(c)
    case Console => v != "" && forall c <- v :: IsPlain(c)
  }

  function EscapeOf(p: Printer): string { if p == Shlex then "'\"'\"'" else "'\\''" }

  function Quote(p: Printer, v: string): string {
    if PrintsBare(p, v) then v else "'" + Escaped(v, EscapeOf(p)) + "'"
  }

  // ---------- Quoting and scanning undo each other ----------

  // Where a word ends: nothing follows, or a space or an operator does.
  predicate EndsWord(rest: string) { rest == "" || IsSpace(rest[0]) || IsOperator(rest[0]) }

  lemma {:induction false} ScanEscaped(v: string, p: Printer, rest: string, word: string)
    ensures ScanSingle(Escaped(v, EscapeOf(p)) + "'" + rest, word) == ScanWord(rest, true, word + v)
    decreases |v|
  {
    var esc := EscapeOf(p);
    if v == "" {
      assert Escaped(v, esc) + "'" + rest == "'" + rest && word + v == word;
    } else {
      var tail := Escaped(v[1..], esc) + "'" + rest;
      ScanEscaped(v[1..], p, rest, word + [v[0]]);
      assert word + [v[0]] + v[1..] == word + v;
      if v[0] != '\'' {
        assert Escaped(v, esc) + "'" + rest == [v[0]] + tail;
      } else {
        assert Escaped(v, esc) + "'" + rest == esc + tail;
        ScanEscape(p, tail, word);
      }
    }
  }

  lemma QuoteToggles(tail: string, word: string)
    ensures ScanSingle("'" + tail, word) == ScanWord(tail, true, word)
    ensures forall started :: ScanWord("'" + tail, started, word) == ScanSingle(tail, word)
    ensures ScanWord("\"" + tail, true, word) == ScanDouble(tail, word)
    ensures ScanDouble("\"" + tail, word) == ScanWord(tail, true, word)
    ensures ScanDouble("'" + tail, word) == ScanDouble(tail, word + "'")
  {
    assert ("'" + tail)[1..] == tail && ("\"" + tail)[1..] == tail;
  }

  lemma BackslashEscapes(tail: string, word: string)
    ensures ScanWord("\\'" + tail, true, word) == ScanWord(tail, true, word + "'")
  {
    assert ("\\'" + tail)[2..] == tail;
  }

  // Both escapes leave the quotes, add one quote to the word and enter quotes again.
  lemma ScanEscape(p: Printer, tail: string, word: string)
    ensures ScanSingle(EscapeOf(p) + tail, word) == ScanSingle(tail, word + "'")
  {
    if p == Shlex {
      assert "'\"'\"'" + tail == "'" + ("\"" + ("'" + ("\"" + ("'" + tail))));
      QuoteToggles("\"" + ("'" + ("\"" + ("'" + tail))), word);
      QuoteToggles("'" + ("\"" + ("'" + tail)), word);
      QuoteToggles("\"" + ("'" + tail), word);
      QuoteToggles("'" + tail, word + "'");
      QuoteToggles(tail, word + "'");
    } else {
      assert "'\\''" + tail == "'" + ("\\'" + ("'" + tail));
      QuoteToggles("\\'" + ("'" + tail), word);
      BackslashEscapes("'" + tail, word);
      QuoteToggles(tail, word + "'");
    }
  }

  predicate OrdinaryOutside(c: char) { !IsSpace(c) && !IsOperator(c) && c != '\'' && c != '"' && c != '\\' }

  lemma {:induction false} ScanBare(v: string, rest: string, started: bool, word: string)
    requires forall c <- v :: OrdinaryOutside(c)
    requires started || v != ""
    ensures ScanWord(v + rest, started, word) == ScanWord(rest, true, word + v)
    decreases |v|
  {
    if v == "" {
      assert v + rest == rest && word + v == word;
    } else {
      assert v[0] in v;
      assert (v + rest)[1..] == v[1..] + rest && word + [v[0]] + v[1..] == word + v;
      ScanBare(v[1..], rest, true, word + [v[0]]);
    }
  }

  lemma SafeIsOrdinary(c: char)
    ensures IsPlain(c) || ShlexSafe(c) ==> OrdinaryOutside(c)
  {
  }

  // Whatever follows, the scanner reads exactly the quoted text and goes on outside quotes.
  lemma ScanQuoted(p: Printer, v: string, rest: string)
    ensures Scan(Quote(p, v) + rest) == ScanWord(rest, true, v)
  {
    if PrintsBare(p, v) {
      assert "" + v == v;
      forall c | c in v ensures OrdinaryOutside(c) {
        SafeIsOrdinary(c);
      }
      ScanBare(v, rest, false, "");
    } else {
      assert "" + v == v;
      var body := Escaped(v, EscapeOf(p)) + "'" + rest;
      assert Quote(p, v) + rest == "'" + body;
      QuoteToggles(body, "");
      ScanEscaped(v, p, rest, "");
      hide ScanWord, ScanSingle, Escaped;
    }
  }

  // Section 2.2 of the POSIX Shell Command Language: a quoted argument is one word, and it is the
  // argument. Only an empty argument at the very end is refused.
  lemma ScanUndoesQuote(p: Printer, v: string, rest: string)
    requires EndsWord(rest)
    ensures Scan(Quote(p, v) + rest) == if v == "" && rest == "" then None else Some(v)
  {
    ScanQuoted(p, v, rest);
  }

  // Two arguments are never printed alike.
  lemma QuoteIsInjective(p: Printer, v: string, w: string)
    requires Quote(p, v) == Quote(p, w)
    ensures v == w
  {
    ScanUndoesQuote(p, v, " ");
    ScanUndoesQuote(p, w, " ");
  }

  // ---------- What a word may be written like ----------

  // Inside double quotes: a character, a backslash that escapes one, or a backslash that stays in front of one.
  datatype Inside = Kept(c: char) | Freed(c: char) | WithBackslash(c: char)

  datatype Piece = Bare(c: char) | Escape(c: char) | Singles(text: string) | Doubles(inside: seq<Inside>)

  predicate LegalInside(x: Inside) {
    match x
    case Kept(c) => c != '"' && c != '\\'
    case Freed(c) => c == '$' || c == '`' || c == '"' || c == '\\' || c == '\n'
    case WithBackslash(c) => c != '$' && c != '`' && c != '"' && c != '\\' && c != '\n'
  }

  predicate Legal(p: Piece) {
    match p
    case Bare(c) => c !in " \t\n\r;|&<>()'\"\\"
    case Escape(_) => true
    case Singles(text) => '\'' !in text
    case Doubles(inside) => forall x <- inside :: LegalInside(x)
  }

  function WrittenInside(xs: seq<Inside>): string {
    if xs == [] then "" else WrittenIn(xs[0]) + WrittenInside(xs[1..])
  }

  function WrittenIn(x: Inside): string { if x.Kept? then [x.c] else "\\" + [x.c] }

  function MeantIn(x: Inside): string { if x.WithBackslash? then "\\" + [x.c] else [x.c] }

  function MeantInside(xs: seq<Inside>): string {
    if xs == [] then "" else MeantIn(xs[0]) + MeantInside(xs[1..])
  }

  function Written(ps: seq<Piece>): string {
    if ps == [] then "" else WrittenOne(ps[0]) + Written(ps[1..])
  }

  function WrittenOne(p: Piece): string {
    match p
    case Bare(c) => [c]
    case Escape(c) => "\\" + [c]
    case Singles(text) => "'" + text + "'"
    case Doubles(inside) => "\"" + WrittenInside(inside) + "\""
  }

  function Meant(ps: seq<Piece>): string {
    if ps == [] then "" else MeantOne(ps[0]) + Meant(ps[1..])
  }

  function MeantOne(p: Piece): string {
    match p
    case Bare(c) => [c]
    case Escape(c) => [c]
    case Singles(text) => text
    case Doubles(inside) => MeantInside(inside)
  }

  lemma {:induction false} ScanSingles(text: string, tail: string, word: string)
    requires '\'' !in text
    ensures ScanSingle(text + "'" + tail, word) == ScanWord(tail, true, word + text)
    ensures ScanSingle(text, word) == None
    decreases |text|
  {
    if text == "" {
      assert text + "'" + tail == "'" + tail && word + text == word;
      QuoteToggles(tail, word);
    } else {
      assert (text + "'" + tail)[1..] == text[1..] + "'" + tail && word + [text[0]] + text[1..] == word + text;
      ScanSingles(text[1..], tail, word + [text[0]]);
    }
  }

  lemma {:induction false} ScanInside(xs: seq<Inside>, tail: string, word: string)
    requires forall x <- xs :: LegalInside(x)
    ensures ScanDouble(WrittenInside(xs) + "\"" + tail, word) == ScanWord(tail, true, word + MeantInside(xs))
    ensures ScanDouble(WrittenInside(xs), word) == None
    decreases |xs|
  {
    if xs == [] {
      assert WrittenInside(xs) + "\"" + tail == "\"" + tail && word + MeantInside(xs) == word;
      QuoteToggles(tail, word);
    } else {
      hide ScanDouble, ScanWord, WrittenIn, MeantIn, LegalInside;
      var more, head, meant := WrittenInside(xs[1..]), MeantIn(xs[0]), MeantInside(xs[1..]);
      assert WrittenInside(xs) == WrittenIn(xs[0]) + more && MeantInside(xs) == head + meant;
      Regrouped(word, head, meant);
      ScanInside(xs[1..], tail, word + head);
      Regrouped(WrittenIn(xs[0]), more, "\"");
      Regrouped(WrittenIn(xs[0]), more + "\"", tail);
      OneInside(xs[0], more + "\"" + tail, word);
      OneInside(xs[0], more, word);
    }
  }

  lemma Regrouped(a: string, b: string, c: string)
    ensures (a + b) + c == a + (b + c)
  {
  }

  lemma OneInside(x: Inside, tail: string, word: string)
    requires LegalInside(x)
    ensures ScanDouble(WrittenIn(x) + tail, word) == ScanDouble(tail, word + MeantIn(x))
  {
    var c := x.c;
    if x.Kept? {
      assert ([c] + tail)[1..] == tail;
    } else if x.Freed? {
      assert ("\\" + [c] + tail)[2..] == tail;
    } else {
      assert ("\\" + [c] + tail)[1..] == [c] + tail && ([c] + tail)[1..] == tail;
      assert word + "\\" + [c] == word + ("\\" + [c]);
    }
  }

  lemma ScanPiece(p: Piece, tail: string, started: bool, word: string)
    requires Legal(p)
    ensures ScanWord(WrittenOne(p) + tail, started, word) == ScanWord(tail, true, word + MeantOne(p))
  {
    match p
    case Bare(c) => assert ([c] + tail)[1..] == tail;
    case Escape(c) => assert ("\\" + [c] + tail)[2..] == tail;
    case Singles(text) =>
      assert "'" + text + "'" + tail == "'" + (text + "'" + tail);
      assert ("'" + (text + "'" + tail))[1..] == text + "'" + tail;
      ScanSingles(text, tail, word);
    case Doubles(inside) =>
      var body := WrittenInside(inside) + "\"" + tail;
      assert "\"" + WrittenInside(inside) + "\"" + tail == "\"" + body && ("\"" + body)[1..] == body;
      ScanInside(inside, tail, word);
  }

  lemma {:induction false} ScanPieces(ps: seq<Piece>, tail: string, started: bool, word: string)
    requires (started || ps != []) && forall p <- ps :: Legal(p)
    ensures ScanWord(Written(ps) + tail, started, word) == ScanWord(tail, true, word + Meant(ps))
    decreases |ps|
  {
    if ps == [] {
      assert Written(ps) + tail == tail && word + Meant(ps) == word;
    } else {
      assert Written(ps) + tail == WrittenOne(ps[0]) + (Written(ps[1..]) + tail);
      assert word + MeantOne(ps[0]) + Meant(ps[1..]) == word + Meant(ps);
      ScanPiece(ps[0], Written(ps[1..]) + tail, started, word);
      ScanPieces(ps[1..], tail, true, word + MeantOne(ps[0]));
    }
  }

  lemma {:induction false} BlanksAreSkipped(blanks: string, s: string)
    requires forall c <- blanks :: c in " \t\n\r"
    ensures Scan(blanks + s) == Scan(s)
    decreases |blanks|
  {
    if blanks == "" {
      assert blanks + s == s;
    } else {
      assert blanks[0] in blanks && (blanks + s)[1..] == blanks[1..] + s;
      BlanksAreSkipped(blanks[1..], s);
    }
  }

  // Section 2.2 of the POSIX Shell Command Language, for everything a word can be written like: characters,
  // escapes, single quotes, and double quotes in which a backslash escapes five characters and stays in
  // front of all others. The scanner skips blanks and reads the word up to a blank, an operator or the end.
  lemma WordsAreRead(blanks: string, ps: seq<Piece>, rest: string)
    requires (forall c <- blanks :: c in " \t\n\r") && ps != [] && (forall p <- ps :: Legal(p))
    requires rest == "" || rest[0] in " \t\n\r;|&<>()"
    ensures Scan(blanks + (Written(ps) + rest)) == if Meant(ps) == "" && rest == "" then None else Some(Meant(ps))
  {
    BlanksAreSkipped(blanks, Written(ps) + rest);
    ScanPieces(ps, rest, false, "");
    assert "" + Meant(ps) == Meant(ps);
  }

  // No word at all: nothing but blanks, an operator in front, or a quote that is left open.
  lemma NoWordIsRead(blanks: string, ps: seq<Piece>, open: string, inside: seq<Inside>, rest: string)
    requires (forall c <- blanks :: c in " \t\n\r") && (forall p <- ps :: Legal(p))
    requires '\'' !in open && forall x <- inside :: LegalInside(x)
    ensures Scan(blanks) == None
    ensures rest != "" && rest[0] in ";|&<>()" ==> Scan(blanks + rest) == None
    ensures Scan(blanks + (Written(ps) + ("'" + open))) == None
    ensures Scan(blanks + (Written(ps) + ("\"" + WrittenInside(inside)))) == None
  {
    NoWordAtAll(blanks, rest);
    ScanSingles(open, "", Meant(ps));
    ScanInside(inside, "", Meant(ps));
    OpenQuotes(open, WrittenInside(inside), Meant(ps));
    hide ScanWord, ScanSingle, ScanDouble, Legal, LegalInside, Scan;
    AllBehindIsRefused(blanks, ps, "'" + open);
    AllBehindIsRefused(blanks, ps, "\"" + WrittenInside(inside));
  }

  lemma NoWordAtAll(blanks: string, rest: string)
    requires forall c <- blanks :: c in " \t\n\r"
    ensures Scan(blanks) == None && (rest != "" && rest[0] in ";|&<>()" ==> Scan(blanks + rest) == None)
  {
    BlanksAreSkipped(blanks, "");
    assert blanks + "" == blanks;
    BlanksAreSkipped(blanks, rest);
  }

  lemma OpenQuotes(single: string, double: string, word: string)
    requires ScanSingle(single, word) == None && ScanDouble(double, word) == None
    ensures forall started :: ScanWord("'" + single, started, word) == None && ScanWord("\"" + double, started, word) == None
  {
    assert ("'" + single)[1..] == single && ("\"" + double)[1..] == double;
  }

  lemma AllBehindIsRefused(blanks: string, ps: seq<Piece>, tail: string)
    requires (forall c <- blanks :: c in " \t\n\r") && (forall p <- ps :: Legal(p))
    requires ScanWord(tail, false, Meant(ps)) == None && ScanWord(tail, true, Meant(ps)) == None
    ensures Scan(blanks + (Written(ps) + tail)) == None
  {
    BlanksAreSkipped(blanks, Written(ps) + tail);
    if ps == [] {
      assert Written(ps) + tail == tail;
    } else {
      ScanPieces(ps, tail, false, "");
      assert "" + Meant(ps) == Meant(ps);
    }
  }

  // ---------- The dispatcher ----------

  const MARKER := "HCI_USER_COMMAND="

  predicate StartsWith(s: string, m: string) { |m| <= |s| && s[..|m|] == m }

  // strings.Index: the first occurrence, -1 when there is none.
  function IndexOf(s: string, m: string): (i: int)
    requires m != ""
    ensures -1 <= i <= |s| - |m| || i == -1
    ensures i >= 0 ==> StartsWith(s[i..], m) && forall k | 0 <= k < i :: !StartsWith(s[k..], m)
    ensures i == -1 ==> forall k | 0 <= k <= |s| :: !StartsWith(s[k..], m)
  {
    if |s| < |m| then -1
    else if StartsWith(s, m) then
      assert s[0..] == s;
      0
    else
      var i := IndexOf(s[1..], m);
      FoundBehind(s, m, i);
      if i < 0 then -1 else i + 1
  }

  // What is found behind the first character is found one later in the whole.
  lemma FoundBehind(s: string, m: string, i: int)
    requires m != "" && s != "" && !StartsWith(s, m) && -1 <= i < |s|
    requires i >= 0 ==> StartsWith(s[1..][i..], m) && forall k | 0 <= k < i :: !StartsWith(s[1..][k..], m)
    requires i == -1 ==> forall k | 0 <= k <= |s[1..]| :: !StartsWith(s[1..][k..], m)
    ensures i >= 0 ==> StartsWith(s[i + 1..], m) && forall k | 0 <= k < i + 1 :: !StartsWith(s[k..], m)
    ensures i == -1 ==> forall k | 0 <= k <= |s| :: !StartsWith(s[k..], m)
  {
    hide StartsWith;
    assert s[0..] == s;
    if i >= 0 {
      Tail(s, i + 1);
    }
    forall k | 0 <= k <= |s| && (i == -1 || k < i + 1) ensures !StartsWith(s[k..], m) {
      if k > 0 {
        Tail(s, k);
        assert !StartsWith(s[1..][k - 1..], m);
      }
    }
  }

  lemma Tail(s: string, k: nat)
    requires 1 <= k <= |s|
    ensures s[k..] == s[1..][k - 1..]
  {
  }

  predicate Contains(s: string, m: string)
    requires m != ""
  {
    IndexOf(s, m) >= 0
  }

  lemma {:induction false} ScanShrinks(s: string, started: bool, word: string)
    ensures ScanWord(s, started, word).Some? ==> |ScanWord(s, started, word).value| <= |word| + |s|
    ensures ScanSingle(s, word).Some? ==> |ScanSingle(s, word).value| <= |word| + |s|
    ensures ScanDouble(s, word).Some? ==> |ScanDouble(s, word).value| <= |word| + |s|
    decreases |s|
  {
    if s != "" {
      ScanShrinks(s[1..], started, word);
      ScanShrinks(s[1..], true, word);
      ScanShrinks(s[1..], true, word + [s[0]]);
      if |s| > 1 {
        ScanShrinks(s[2..], true, word + [s[1]]);
      }
    }
  }

  // What follows the first marker, scanned.
  function Inner(command: string): (inner: Option<string>)
    ensures inner.Some? ==> |inner.value| < |command|
  {
    var at := IndexOf(command, MARKER);
    if at < 0 then None
    else
      ScanShrinks(command[at + |MARKER|..], false, "");
      Scan(command[at + |MARKER|..])
  }

  // extractContainerUserCommand.
  function Extract(command: string): string
    decreases |command|
  {
    if !Contains(command, MARKER) then command
    else match Inner(command)
      case None => command
      case Some(inner) => if Contains(inner, MARKER) then Extract(inner) else inner
  }

  // The command is returned as it came exactly when it holds no marker that a word follows;
  // unwrapping again changes nothing.
  lemma {:induction false} ExtractReachesTheCommand(command: string)
    ensures Extract(command) == command <==> Inner(command) == None
    ensures Inner(Extract(command)) == None && Extract(Extract(command)) == Extract(command)
    ensures |Extract(command)| <= |command|
    decreases |command|
  {
    if Inner(command).Some? {
      ExtractReachesTheCommand(Inner(command).value);
    }
  }

  // One level of dispatcher around a command.
  datatype Layer = Layer(prefix: string, printer: Printer, suffix: string)

  predicate Sound(l: Layer) { !Contains(l.prefix, MARKER) && EndsWord(l.suffix) }

  function WrapOne(l: Layer, command: string): string {
    l.prefix + MARKER + Quote(l.printer, command) + l.suffix
  }

  function Wrap(layers: seq<Layer>, command: string): string {
    if layers == [] then command else WrapOne(layers[0], Wrap(layers[1..], command))
  }

  // The marker does not overlap itself, so after a prefix without one its first occurrence is where
  // it was written.
  lemma MarkerIsFoundWhereWritten(prefix: string, rest: string)
    requires !Contains(prefix, MARKER)
    ensures IndexOf(prefix + MARKER + rest, MARKER) == |prefix|
  {
    var s := prefix + MARKER + rest;
    assert StartsWith(s[|prefix|..], MARKER) by {
      assert s[|prefix|..] == MARKER + rest;
    }
    forall k | 0 <= k < |prefix| ensures !StartsWith(s[k..], MARKER) {
      if k + |MARKER| <= |prefix| {
        assert s[k..][..|MARKER|] == prefix[k..][..|MARKER|];
        assert !StartsWith(prefix[k..], MARKER);
      } else {
        var overlap := |prefix| - k;
        assert s[k..][overlap] == MARKER[0];
        assert MARKER[overlap] != MARKER[0];
      }
    }
  }

  lemma InnerOfOne(l: Layer, command: string)
    requires Sound(l)
    ensures Inner(WrapOne(l, command)) == if command == "" && l.suffix == "" then None else Some(command)
  {
    var rest := Quote(l.printer, command) + l.suffix;
    assert WrapOne(l, command) == l.prefix + MARKER + rest;
    MarkerIsFoundWhereWritten(l.prefix, rest);
    assert WrapOne(l, command)[|l.prefix| + |MARKER|..] == rest;
    ScanUndoesQuote(l.printer, command, l.suffix);
  }

  // Through any depth of wrapping, whatever printer each level used, the innermost command comes
  // back: all of it when it holds no marker itself, and otherwise what it would unwrap to alone.
  lemma {:induction false} ExtractUndoesWrap(layers: seq<Layer>, command: string)
    requires forall l <- layers :: Sound(l)
    requires command != ""
    ensures Extract(Wrap(layers, command)) == Extract(command)
    ensures !Contains(command, MARKER) ==> Extract(Wrap(layers, command)) == command
    decreases |layers|
  {
    if layers != [] {
      var inside := Wrap(layers[1..], command);
      assert layers[0] in layers;
      WrapIsNotEmpty(layers[1..], command);
      InnerOfOne(layers[0], inside);
      ExtractUndoesWrap(layers[1..], command);
    }
  }

  lemma WrapIsNotEmpty(layers: seq<Layer>, command: string)
    requires command != ""
    ensures Wrap(layers, command) != ""
  {
    if layers != [] {
      assert |Wrap(layers, command)| >= |MARKER|;
    }
  }

  // The empty command is the one exception, and only when nothing follows it.
  lemma ExtractOfAnEmptyCommand(l: Layer)
    requires Sound(l)
    ensures Extract(WrapOne(l, "")) == if l.suffix == "" then WrapOne(l, "") else ""
  {
    InnerOfOne(l, "");
  }
}
