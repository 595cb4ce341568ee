/** Saved games: the printer of client/pgn_save.c and the reader of client/replay.c. */
module Pgn {
  import opened Strings

  const MAX_MOVES: nat := 512
  const MAX_SAN: nat := 16
  const LINE_SIZE: nat := 512
  const TOKEN_WIDTH: nat := 31

  // ----- write_pgn

  function Tag(name: string, value: string): string {
    "[" + (name + (" \"" + (value + ("\"]" + "\n"))))
  }

  /** The tag pairs before the result; the names are as the clients gave them. */
  function FirstTags(date: string, white: string, black: string): string {
    Tag("Event", "Multiplay Chess") + (Tag("Site", "Local") + (Tag("Date", date) + (Tag("Round", "1") +
    (Tag("White", white) + Tag("Black", black)))))
  }

  function Tags(date: string, white: string, black: string, result: string): string {
    FirstTags(date, white, black) + Tag("Result", result)
  }

  function Entry(i: nat, move: string): string {
    if i % 2 == 0 then Dec(i / 2 + 1) + ". " + move else " " + move + "\n"
  }

  /** The movetext from move `i` on. */
  function Movetext(moves: seq<string>, i: nat): string
    requires i <= |moves|
    decreases |moves| - i
  {
    if i == |moves| then (if |moves| % 2 != 0 then "\n" else "")
    else Entry(i, moves[i]) + Movetext(moves, i + 1)
  }

  function Saved(date: string, white: string, black: string, result: string, moves: seq<string>): string {
    Tags(date, white, black, result) + "\n" + Movetext(moves, 0)
  }

  method WritePgn(date: string, localIsWhite: bool, localPlayer: string, opponent: string, result: string,
                  moves: seq<string>)
    returns (out: string)
    ensures out == Saved(date, if localIsWhite then localPlayer else opponent,
                         if localIsWhite then opponent else localPlayer, result, moves)
  {
    hide Tags, Entry;
    if localIsWhite {
      out := Tags(date, localPlayer, opponent, result);
    } else {
      out := Tags(date, opponent, localPlayer, result);
    }
    out := out + "\n";
    ghost var head := out;
    var i := 0;
    while i < |moves|
      invariant 0 <= i <= |moves| && out + Movetext(moves, i) == head + Movetext(moves, 0)
    {
      EntryIs(i, moves[i]);
      if i % 2 == 0 {
        out := out + (Dec(i / 2 + 1) + ". " + moves[i]);
      } else {
        out := out + (" " + moves[i] + "\n");
      }
      i := i + 1;
    }
    if |moves| % 2 != 0 {
      out := out + "\n";
    }
  }

  lemma {:induction false} EntryIs(i: nat, move: string)
    ensures Entry(i, move) == if i % 2 == 0 then Dec(i / 2 + 1) + ". " + move else " " + move + "\n"
  {
  }

  // ----- load_moves

  /** What `fgets` takes: up to a newline, the end, or one less than the buffer. */
  function LineLength(s: string, room: nat): (n: nat)
    requires s != "" && room > 0
    ensures 0 < n <= |s|
  {
    if s[0] == '\n' || |s| == 1 || room == 1 then 1 else 1 + LineLength(s[1..], room - 1)
  }

  /** The text behind the first blank line that `fgets` sees. */
  function SkipHeader(s: string): string
    decreases |s|
  {
    if s == "" then ""
    else
      var n := LineLength(s, LINE_SIZE - 1);
      if s[0] == '\n' then s[n..] else SkipHeader(s[n..])
  }

  /** `strncpy` into an entry of `MAX_SAN`. */
  function Cut(token: string): string {
    if |token| < MAX_SAN then token else token[..MAX_SAN - 1]
  }

  /** The tokens without a dot, as long as there is room. */
  function Collect(tokens: seq<string>, room: nat): (moves: seq<string>)
    ensures |moves| <= room && |moves| <= |tokens|
    decreases |tokens|
  {
    if tokens == [] || room == 0 then []
    else if '.' in tokens[0] then Collect(tokens[1..], room)
    else [Cut(tokens[0])] + Collect(tokens[1..], room - 1)
  }

  function Scan(s: string): seq<string> {
    Tokens(s, WhiteSpace, TOKEN_WIDTH)
  }

  function Loaded(file: string): seq<string> {
    Collect(Scan(SkipHeader(file)), MAX_MOVES)
  }

  /** The loop over the tag lines. */
  method SkipTags(file: string) returns (rest: string)
    ensures rest == SkipHeader(file)
  {
    rest := file;
    while rest != ""
      invariant SkipHeader(rest) == SkipHeader(file)
      decreases |rest|
    {
      var n := LineLength(rest, LINE_SIZE - 1);
      var line := rest[..n];
      rest := rest[n..];
      if line[0] == '\n' { return; }
    }
  }

  lemma {:induction false} ScanStep(s: string)
    requires s != "" && !IsSpace(s[0])
    ensures var n := TokenLength(s, WhiteSpace, TOKEN_WIDTH);
            n > 0 && Scan(s) == [s[..n]] + Scan(s[n..])
  {
    assert s[SkipLength(s, WhiteSpace)..] == s;
  }

  lemma {:induction false} ScanBlanks(s: string)
    ensures Scan(s[SkipLength(s, WhiteSpace)..]) == Scan(s)
  {
  }

  lemma ScanEnd()
    ensures Scan("") == []
  {
  }

  lemma CollectStep(token: string, tokens: seq<string>, room: nat)
    requires room > 0
    ensures Collect([token] + tokens, room) ==
            if '.' in token then Collect(tokens, room) else [Cut(token)] + Collect(tokens, room - 1)
  {
    assert ([token] + tokens)[1..] == tokens;
  }

  lemma {:induction false} CollectEnd(tokens: seq<string>, room: nat)
    requires tokens == [] || room == 0
    ensures Collect(tokens, room) == []
  {
  }

  /** The loop over the tokens. */
  method ReadTokens(text: string) returns (moves: seq<string>)
    ensures moves == Collect(Scan(text), MAX_MOVES)
  {
    hide Scan, Collect, Cut;
    moves := [];
    var rest := text[SkipLength(text, WhiteSpace)..];
    ScanBlanks(text);
    while rest != "" && |moves| < MAX_MOVES
      invariant rest != "" ==> !IsSpace(rest[0])
      invariant |moves| <= MAX_MOVES
      invariant moves + Collect(Scan(rest), MAX_MOVES - |moves|) == Collect(Scan(text), MAX_MOVES)
      decreases |rest|
    {
      var n := TokenLength(rest, WhiteSpace, TOKEN_WIDTH);
      ScanStep(rest);
      var token := rest[..n];
      rest := rest[n..];
      CollectStep(token, Scan(rest), MAX_MOVES - |moves|);
      ScanBlanks(rest);
      rest := rest[SkipLength(rest, WhiteSpace)..];
      if '.' !in token {
        moves := moves + [Cut(token)];
      }
    }
    ScanEnd();
    CollectEnd(Scan(rest), MAX_MOVES - |moves|);
  }

  method LoadMoves(file: string) returns (moves: seq<string>)
    ensures moves == Loaded(file)
  {
    var movetext := SkipTags(file);
    moves := ReadTokens(movetext);
  }

  // ----- reading back the movetext

  /** A recorded move: short, without white space, dots or brackets. */
  predicate IsEntry(t: string) {
    t != "" && |t| < MAX_SAN && Solid(t, WhiteSpace) && '.' !in t && '[' !in t
  }

  predicate AreEntries(moves: seq<string>) {
    forall i :: 0 <= i < |moves| ==> IsEntry(moves[i])
  }

  predicate StartsBlank(s: string) {
    s == "" || IsSpace(s[0])
  }

  lemma ScanToken(t: string, rest: string)
    requires t != "" && |t| <= TOKEN_WIDTH && Solid(t, WhiteSpace) && StartsBlank(rest)
    ensures Scan(t + rest) == [t] + Scan(rest)
  {
    TokensCons(t, rest, WhiteSpace, TOKEN_WIDTH);
  }

  lemma ScanSkip(c: char, rest: string)
    requires IsSpace(c)
    ensures Scan([c] + rest) == Scan(rest)
  {
    TokensSkip(c, rest, WhiteSpace, TOKEN_WIDTH);
  }

  lemma {:induction false} MovetextStartsBlank(moves: seq<string>, i: nat)
    requires i <= |moves| && i % 2 == 1
    ensures StartsBlank(Movetext(moves, i))
  {
  }

  lemma {:induction false} DecIsShort(n: nat)
    requires n < 1000
    ensures |Dec(n)| <= 3
  {
    if n >= 10 {
      if n >= 100 { assert |Dec(n / 10 / 10)| == 1; }
      assert |Dec(n / 10)| <= 2;
    }
  }

  lemma {:induction false} NumberToken(n: nat)
    requires n < 1000
    ensures |Dec(n) + "."| <= TOKEN_WIDTH && Solid(Dec(n) + ".", WhiteSpace)
    ensures Dec(n) + "." != "" && '.' in Dec(n) + "."
  {
    DecIsShort(n);
    var t := Dec(n) + ".";
    assert t[|t| - 1] == '.';
  }

  /** An even entry is read as a number token and the move, an odd one as the move. */
  lemma {:induction false} ScanEntry(i: nat, move: string, rest: string)
    requires IsEntry(move) && i < 1000 && (i % 2 == 0 ==> StartsBlank(rest))
    ensures Scan(Entry(i, move) + rest) ==
            (if i % 2 == 0 then [Dec(i / 2 + 1) + "."] else []) + ([move] + Scan(rest))
  {
    hide Scan, Dec;
    if i % 2 == 0 {
      var number := Dec(i / 2 + 1) + ".";
      NumberToken(i / 2 + 1);
      assert Entry(i, move) + rest == number + ([' '] + (move + rest));
      ScanToken(number, [' '] + (move + rest));
      ScanSkip(' ', move + rest);
      ScanToken(move, rest);
    } else {
      assert Entry(i, move) + rest == [' '] + (move + (['\n'] + rest));
      ScanSkip(' ', move + (['\n'] + rest));
      ScanToken(move, ['\n'] + rest);
      ScanSkip('\n', rest);
    }
  }

  lemma CollectEntry(i: nat, move: string, tokens: seq<string>, room: nat)
    requires IsEntry(move) && i < 1000 && room > 0
    ensures Collect((if i % 2 == 0 then [Dec(i / 2 + 1) + "."] else []) + ([move] + tokens), room)
         == [move] + Collect(tokens, room - 1)
  {
    CollectStep(move, tokens, room);
    if i % 2 == 0 {
      NumberToken(i / 2 + 1);
      CollectStep(Dec(i / 2 + 1) + ".", [move] + tokens, room);
    } else {
      assert [] + ([move] + tokens) == [move] + tokens;
    }
  }

  lemma {:induction false} MovetextEnd(moves: seq<string>)
    ensures Scan(Movetext(moves, |moves|)) == []
  {
    ScanEnd();
    ScanSkip('\n', "");
    assert ['\n'] + "" == "\n";
  }

  /** Reading the movetext from move `i` on yields the moves from `i` on. */
  lemma {:induction false} CollectMovetext(moves: seq<string>, i: nat)
    requires AreEntries(moves) && i <= |moves| <= MAX_MOVES
    ensures Collect(Scan(Movetext(moves, i)), MAX_MOVES - i) == moves[i..]
    decreases |moves| - i
  {
    hide Scan, Collect, Entry, Dec, IsEntry, StartsBlank;
    if i == |moves| {
      MovetextEnd(moves);
      CollectEnd([], MAX_MOVES - i);
    } else {
      var rest := Movetext(moves, i + 1);
      if i % 2 == 0 { MovetextStartsBlank(moves, i + 1); }
      ScanEntry(i, moves[i], rest);
      CollectEntry(i, moves[i], Scan(rest), MAX_MOVES - i);
      CollectMovetext(moves, i + 1);
    }
  }

  // ----- the blank line behind the tags

  predicate BlankAt(s: string, i: int) {
    0 <= i < |s| - 1 && s[i] == '\n' && s[i + 1] == '\n'
  }

  ghost predicate HasBlankLine(s: string) {
    exists i :: BlankAt(s, i)
  }

  /** The header ends at the first blank line, as long as it lies within one buffer. */
  lemma {:induction false} HeaderEndsAtFirstBlank(s: string, i: nat)
    requires BlankAt(s, i) && s[0] != '\n' && i + 2 < LINE_SIZE
    requires forall j :: 0 <= j < i ==> !BlankAt(s, j)
    ensures SkipHeader(s) == s[i + 2..]
    decreases |s|
  {
    var n := LineLength(s, LINE_SIZE - 1);
    LineEndsAtNewline(s, LINE_SIZE - 1, i);
    var t := s[n..];
    if n == i + 1 {
      assert t[0] == '\n' && LineLength(t, LINE_SIZE - 1) == 1 && t[1..] == s[i + 2..];
    } else {
      assert !BlankAt(s, n - 1);
      forall j | 0 <= j < i - n ensures !BlankAt(t, j) {
        assert !BlankAt(s, j + n);
      }
      assert BlankAt(t, i - n);
      HeaderEndsAtFirstBlank(t, i - n);
      assert t[i - n + 2..] == s[i + 2..];
    }
  }

  lemma {:induction false} LineEndsAtNewline(s: string, room: nat, i: nat)
    requires i < |s| && s[i] == '\n' && i < room
    ensures LineLength(s, room) <= i + 1 && s[LineLength(s, room) - 1] == '\n'
    ensures forall j :: 0 <= j < LineLength(s, room) - 1 ==> s[j] != '\n'
    decreases room
  {
    if s[0] != '\n' {
      LineEndsAtNewline(s[1..], room - 1, i - 1);
    }
  }

  predicate OneLine(s: string) {
    '\n' !in s
  }

  /** A blank line in a concatenation lies in one of the parts, unless it straddles the seam. */
  lemma BlankInConcat(a: string, b: string)
    requires b != "" ==> b[0] != '\n'
    ensures HasBlankLine(a + b) <==> HasBlankLine(a) || HasBlankLine(b)
  {
    var s := a + b;
    if i :| BlankAt(s, i) {
      if i + 1 < |a| { assert BlankAt(a, i); } else { assert BlankAt(b, i - |a|); }
    }
    if i :| BlankAt(a, i) { assert BlankAt(s, i); }
    if i :| BlankAt(b, i) { assert BlankAt(s, |a| + i); }
  }

  lemma OneLineHasNoBlank(s: string)
    requires OneLine(s)
    ensures !HasBlankLine(s)
  {
    assert forall i :: 0 <= i < |s| ==> s[i] in s;
  }

  lemma BlankBeforeNewline(a: string)
    requires a != "" && a[|a| - 1] != '\n'
    ensures HasBlankLine(a + "\n") <==> HasBlankLine(a)
  {
    var s := a + "\n";
    if i :| BlankAt(s, i) { assert BlankAt(a, i); }
    if i :| BlankAt(a, i) { assert BlankAt(s, i); }
  }

  /** A blank line in a tag is one in its value. */
  lemma BlankInTag(name: string, value: string)
    requires OneLine(name)
    ensures HasBlankLine(Tag(name, value)) <==> HasBlankLine(value)
    ensures Tag(name, value)[0] == '[' && |Tag(name, value)| == |name| + |value| + 6
  {
    var front := "[" + name + " \"";
    var closing := "\"]";
    assert Tag(name, value) == (front + (value + closing)) + "\n";
    OneLineHasNoBlank(closing);
    OneLineHasNoBlank(front);
    BlankInConcat(value, closing);
    BlankAfterQuote(front, value + closing);
    BlankBeforeNewline(front + (value + closing));
  }

  lemma BlankAfterQuote(a: string, b: string)
    requires a != "" && a[|a| - 1] != '\n'
    ensures HasBlankLine(a + b) <==> HasBlankLine(a) || HasBlankLine(b)
  {
    var s := a + b;
    if i :| BlankAt(s, i) {
      if i + 1 < |a| { assert BlankAt(a, i); } else { assert BlankAt(b, i - |a|); }
    }
    if i :| BlankAt(a, i) { assert BlankAt(s, i); }
    if i :| BlankAt(b, i) { assert BlankAt(s, |a| + i); }
  }

  /** What the clients guarantee of the tag values: dates and results are short and on one
      line, names fit their buffers. */
  predicate TagsFit(date: string, white: string, black: string, result: string) {
    |date| <= 10 && OneLine(date) && |result| < 8 && OneLine(result) && |white| < 32 && |black| < 32
  }

  lemma BlankInTags(date: string, white: string, black: string, result: string)
    requires TagsFit(date, white, black, result)
    ensures var f := FirstTags(date, white, black);
            && (HasBlankLine(f) <==> HasBlankLine(white) || HasBlankLine(black))
            && 3 < |f| < 200 && f[0] == '[' && f[|f| - 1] == '\n' && f[|f| - 2] == ']'
  {
    OneLineHasNoBlank("Multiplay Chess");
    OneLineHasNoBlank("Local");
    OneLineHasNoBlank("1");
    OneLineHasNoBlank(date);
    BlankInTag("Event", "Multiplay Chess");
    BlankInTag("Site", "Local");
    BlankInTag("Date", date);
    BlankInTag("Round", "1");
    BlankInTag("White", white);
    BlankInTag("Black", black);
    var black' := Tag("Black", black);
    LastOfTag("Black", black);
    hide Tag, HasBlankLine, BlankAt;
    BlankInConcat(Tag("White", white), black');
    BlankInConcat(Tag("Round", "1"), Tag("White", white) + black');
    BlankInConcat(Tag("Date", date), Tag("Round", "1") + (Tag("White", white) + black'));
    BlankInConcat(Tag("Site", "Local"), Tag("Date", date) + (Tag("Round", "1") + (Tag("White", white) + black')));
    BlankInConcat(Tag("Event", "Multiplay Chess"),
                  Tag("Site", "Local") + (Tag("Date", date) + (Tag("Round", "1") + (Tag("White", white) + black'))));
  }

  lemma LastOfTag(name: string, value: string)
    ensures var t := Tag(name, value); t[|t| - 1] == '\n' && t[|t| - 2] == ']'
  {
  }

  lemma FirstBlank(s: string) returns (i: nat)
    requires HasBlankLine(s)
    ensures BlankAt(s, i) && forall j :: 0 <= j < i ==> !BlankAt(s, j)
  {
    i := 0;
    var k :| BlankAt(s, k);
    while !BlankAt(s, i)
      invariant i <= k && forall j :: 0 <= j < i ==> !BlankAt(s, j)
      decreases k - i
    {
      i := i + 1;
    }
  }

  /** With well-behaved names the header is skipped exactly. */
  lemma {:induction false} HeaderIsSkipped(tags: string, body: string)
    requires !HasBlankLine(tags) && |tags| < 500 && tags != "" && tags[0] != '\n' && tags[|tags| - 1] == '\n'
    ensures SkipHeader(tags + "\n" + body) == body
  {
    var s := tags + "\n" + body;
    assert BlankAt(s, |tags| - 1);
    forall j | 0 <= j < |tags| - 1 ensures !BlankAt(s, j) {
      assert !BlankAt(tags, j);
    }
    HeaderEndsAtFirstBlank(s, |tags| - 1);
    assert s[|tags| + 1..] == body;
  }

  // ----- a name with a blank line

  lemma {:induction false} ScanConcat(a: string, b: string)
    requires a != "" && IsSpace(a[|a| - 1])
    ensures Scan(a + b) == Scan(a) + Scan(b)
    decreases |a|
  {
    hide Scan, TokenLength;
    if IsSpace(a[0]) {
      assert a + b == [a[0]] + (a[1..] + b) && a == [a[0]] + a[1..];
      ScanSkip(a[0], a[1..] + b);
      ScanSkip(a[0], a[1..]);
      if |a| == 1 {
        ScanEnd();
        assert a[1..] + b == b;
      } else {
        ScanConcat(a[1..], b);
      }
    } else {
      ScanStep(a);
      ScanStep(a + b);
      var n := TokenLength(a, WhiteSpace, TOKEN_WIDTH);
      SameTokenLength(a, b, TOKEN_WIDTH);
      assert (a + b)[..n] == a[..n] && (a + b)[n..] == a[n..] + b;
      ScanConcat(a[n..], b);
    }
  }

  lemma {:induction false} SameTokenLength(a: string, b: string, max: nat)
    requires a != "" && IsSpace(a[|a| - 1])
    ensures TokenLength(a + b, WhiteSpace, max) == TokenLength(a, WhiteSpace, max) < |a|
    decreases |a|
  {
    if max > 0 && !IsSpace(a[0]) {
      assert (a + b)[1..] == a[1..] + b;
      SameTokenLength(a[1..], b, max - 1);
    }
  }

  lemma {:induction false} ScanCount(s: string)
    ensures |Scan(s)| <= |s|
    decreases |s|
  {
    if s == "" {
      ScanEnd();
    } else if IsSpace(s[0]) {
      assert s == [s[0]] + s[1..];
      ScanSkip(s[0], s[1..]);
      ScanCount(s[1..]);
    } else {
      ScanStep(s);
      ScanCount(s[TokenLength(s, WhiteSpace, TOKEN_WIDTH)..]);
    }
  }

  lemma {:induction false} CollectKeeps(a: seq<string>, t: string, b: seq<string>, room: nat)
    requires |a| < room && '.' !in t && |t| < MAX_SAN
    ensures t in Collect(a + ([t] + b), room)
    decreases |a|
  {
    if a == [] {
      assert a + ([t] + b) == [t] + b;
      CollectStep(t, b, room);
    } else {
      assert a + ([t] + b) == [a[0]] + (a[1..] + ([t] + b));
      CollectStep(a[0], a[1..] + ([t] + b), room);
      CollectKeeps(a[1..], t, b, if '.' in a[0] then room else room - 1);
    }
  }

  lemma ResultToken(result: string, body: string)
    ensures exists rest :: Scan(Tag("Result", result) + body) == ["[Result"] + rest
  {
    var rest := [' '] + ("\"" + (result + ("\"]" + "\n")) + body);
    assert "[" + "Result" == "[Result";
    assert Tag("Result", result) + body == "[Result" + rest;
    assert Solid("[Result", WhiteSpace);
    ScanToken("[Result", rest);
  }

  /** If the header is taken to end at `i`, inside the tags, the result tag is read as a move. */
  lemma TagReadAsMove(tags: string, i: nat, result: string, body: string)
    requires BlankAt(tags, i) && i + 2 < |tags| < 200 && IsSpace(tags[|tags| - 1])
    ensures "[Result" in Collect(Scan(tags[i + 2..] + (Tag("Result", result) + body)), MAX_MOVES)
  {
    var a := tags[i + 2..];
    ScanConcat(a, Tag("Result", result) + body);
    ResultToken(result, body);
    var rest :| Scan(Tag("Result", result) + body) == ["[Result"] + rest;
    ScanCount(a);
    CollectKeeps(Scan(a), "[Result", rest, MAX_MOVES);
  }

  lemma BlankNameSpoils(tags: string, result: string, body: string)
    requires HasBlankLine(tags) && 3 < |tags| < 200 && tags[0] != '\n'
    requires tags[|tags| - 1] == '\n' && tags[|tags| - 2] != '\n'
    ensures "[Result" in Loaded(tags + Tag("Result", result) + body)
  {
    var s := tags + Tag("Result", result) + body;
    var i := FirstBlank(tags);
    assert BlankAt(s, i) && i + 2 < |tags|;
    forall j | 0 <= j < i ensures !BlankAt(s, j) {
      assert !BlankAt(tags, j);
    }
    HeaderEndsAtFirstBlank(s, i);
    assert s[i + 2..] == tags[i + 2..] + (Tag("Result", result) + body);
    TagReadAsMove(tags, i, result, body);
  }

  // ----- the round trip

  lemma TagsShape(date: string, white: string, black: string, result: string)
    requires TagsFit(date, white, black, result)
    ensures var t := Tags(date, white, black, result);
            && (HasBlankLine(t) <==> HasBlankLine(white) || HasBlankLine(black))
            && 0 < |t| < 500 && t[0] == '[' && t[|t| - 1] == '\n'
  {
    BlankInTags(date, white, black, result);
    OneLineHasNoBlank(result);
    BlankInTag("Result", result);
    LastOfTag("Result", result);
    hide Tag, FirstTags, HasBlankLine;
    BlankInConcat(FirstTags(date, white, black), Tag("Result", result));
  }

  lemma SavedLoadsWhenNamesFit(date: string, white: string, black: string, result: string, moves: seq<string>)
    requires TagsFit(date, white, black, result) && AreEntries(moves) && |moves| <= MAX_MOVES
    requires !HasBlankLine(white) && !HasBlankLine(black)
    ensures Loaded(Saved(date, white, black, result, moves)) == moves
  {
    TagsShape(date, white, black, result);
    hide Tags, HasBlankLine, Movetext, SkipHeader, Scan, Collect;
    HeaderIsSkipped(Tags(date, white, black, result), Movetext(moves, 0));
    CollectMovetext(moves, 0);
    assert moves[0..] == moves;
  }

  lemma Regroup(a: string, b: string, c: string, d: string)
    ensures a + b + c + d == a + b + (c + d)
  {
  }

  lemma {:induction false} SavedParts(date: string, white: string, black: string, result: string, moves: seq<string>)
    ensures Saved(date, white, black, result, moves)
         == FirstTags(date, white, black) + Tag("Result", result) + ("\n" + Movetext(moves, 0))
  {
    hide FirstTags, Tag, Movetext;
    Regroup(FirstTags(date, white, black), Tag("Result", result), "\n", Movetext(moves, 0));
  }

  lemma SavedSpoiled(date: string, white: string, black: string, result: string, moves: seq<string>)
    requires TagsFit(date, white, black, result) && (HasBlankLine(white) || HasBlankLine(black))
    ensures "[Result" in Loaded(Saved(date, white, black, result, moves))
  {
    BlankInTags(date, white, black, result);
    hide *;
    SavedParts(date, white, black, result, moves);
    BlankNameSpoils(FirstTags(date, white, black), result, "\n" + Movetext(moves, 0));
  }

  /** A saved game is read back move for move exactly when neither player's name contains a
      blank line, whatever else the names contain. */
  lemma SavedLoads(date: string, white: string, black: string, result: string, moves: seq<string>)
    requires TagsFit(date, white, black, result) && AreEntries(moves) && |moves| <= MAX_MOVES
    ensures Loaded(Saved(date, white, black, result, moves)) == moves
       <==> !HasBlankLine(white) && !HasBlankLine(black)
  {
    hide Loaded, Saved, HasBlankLine;
    if HasBlankLine(white) || HasBlankLine(black) {
      SavedSpoiled(date, white, black, result, moves);
      NoBracketed(moves);
    } else {
      SavedLoadsWhenNamesFit(date, white, black, result, moves);
    }
  }

  lemma NoBracketed(moves: seq<string>)
    requires AreEntries(moves)
    ensures "[Result" !in moves
  {
    assert '[' in "[Result" by { assert "[Result"[0] == '['; }
  }

  // ----- what the file says

  /** A tag pair as it stands in the file. */
  function TagLine(name: string, value: string): string {
    "[" + name + " \"" + value + "\"]\n"
  }

  lemma {:induction false} TagIsLine(name: string, value: string)
    ensures Tag(name, value) == TagLine(name, value)
  {
    var tail := "\"]" + "\n";
    assert tail == "\"]\n";
    assert value + tail == value + "\"]\n";
    assert "[" + (name + (" \"" + (value + tail))) == "[" + name + " \"" + value + tail;
  }

  lemma {:induction false} SixInARow(a: string, b: string, c: string, d: string, e: string, f: string)
    ensures a + (b + (c + (d + (e + f)))) == a + b + c + d + e + f
  {
    assert d + (e + f) == d + e + f;
    assert c + (d + e + f) == c + d + e + f;
    assert b + (c + d + e + f) == b + c + d + e + f;
  }

  /** The file: seven tags, of which the fifth names the player of White and the sixth the player of
      Black, a blank line, and the movetext. */
  lemma {:induction false} TagsNameThePlayers(date: string, white: string, black: string, result: string,
                                              moves: seq<string>)
    ensures Saved(date, white, black, result, moves) ==
            TagLine("Event", "Multiplay Chess") + TagLine("Site", "Local") + TagLine("Date", date) +
            TagLine("Round", "1") + TagLine("White", white) + TagLine("Black", black) +
            TagLine("Result", result) + "\n" + Movetext(moves, 0)
  {
    TagIsLine("Event", "Multiplay Chess");
    TagIsLine("Site", "Local");
    TagIsLine("Date", date);
    TagIsLine("Round", "1");
    TagIsLine("White", white);
    TagIsLine("Black", black);
    TagIsLine("Result", result);
    hide Tag, TagLine, Movetext;
    SixInARow(Tag("Event", "Multiplay Chess"), Tag("Site", "Local"), Tag("Date", date), Tag("Round", "1"),
              Tag("White", white), Tag("Black", black));
  }

  /** Moves i and i + 1, for even i, stand on one line under the number i / 2 + 1. */
  lemma {:induction false} MovesAreNumbered(moves: seq<string>, i: nat)
    requires i < |moves| && i % 2 == 0
    ensures i + 1 < |moves| ==>
              Movetext(moves, i) ==
              (Dec(i / 2 + 1) + ". " + moves[i]) + ((" " + moves[i + 1] + "\n") + Movetext(moves, i + 2))
    ensures i + 1 == |moves| ==> Movetext(moves, i) == (Dec(i / 2 + 1) + ". " + moves[i]) + "\n"
  {
    hide Dec, Entry, Movetext;
    MovetextStep(moves, i);
    EvenEntry(i, moves[i]);
    if i + 1 < |moves| {
      MovetextStep(moves, i + 1);
      OddEntry(i + 1, moves[i + 1]);
    } else {
      MovetextEndsOdd(moves, i + 1);
    }
  }

  lemma {:induction false} EvenEntry(i: nat, move: string)
    requires i % 2 == 0
    ensures Entry(i, move) == Dec(i / 2 + 1) + ". " + move
  {
    hide Dec;
  }

  lemma {:induction false} OddEntry(i: nat, move: string)
    requires i % 2 == 1
    ensures Entry(i, move) == " " + move + "\n"
  {
    hide Dec;
  }

  lemma {:induction false} MovetextStep(moves: seq<string>, i: nat)
    requires i < |moves|
    ensures Movetext(moves, i) == Entry(i, moves[i]) + Movetext(moves, i + 1)
  {
    hide Entry;
  }

  lemma {:induction false} MovetextEndsOdd(moves: seq<string>, i: nat)
    requires i == |moves| && i % 2 == 1
    ensures Movetext(moves, i) == "\n"
  {
  }

  /** The tokens without a dot. */
  function DotFree(tokens: seq<string>): seq<string> {
    if tokens == [] then []
    else (if '.' in tokens[0] then [] else [tokens[0]]) + DotFree(tokens[1..])
  }

  /** Of any tokens, the first dot-free ones are taken, as many as there is room for, each cut to its
      first 15 characters. */
  lemma {:induction false} DotFreeTokensAreTaken(tokens: seq<string>, room: nat)
    ensures var moves, free := Collect(tokens, room), DotFree(tokens);
            && |moves| == (if |free| < room then |free| else room)
            && forall k :: 0 <= k < |moves| ==> moves[k] == if |free[k]| <= 15 then free[k] else free[k][..15]
    decreases |tokens|
  {
    if tokens != [] && room > 0 {
      DotFreeTokensAreTaken(tokens[1..], if '.' in tokens[0] then room else room - 1);
    }
  }
}
