/**
 `code_only`: blanks the comments and literals of a Go source in place, so that identifiers can be searched
 for at their original positions.
 */
module CodeOnly {
  datatype State = Code | LineComment | BlockComment | StringLiteral | RuneLiteral | RawString

  function Blank(c: char): char {
    if c == '\n' then '\n' else ' '
  }

  /** The character that ends a quoted literal. */
  function Quote(st: State): char {
    match st
    case StringLiteral => '"'
    case RuneLiteral => '\''
    case _ => '`'
  }

  function Opened(c: char): State {
    if c == '"' then StringLiteral else if c == '\'' then RuneLiteral else if c == '`' then RawString else Code
  }

  predicate Pair(s: string, a: char, b: char) {
    |s| >= 2 && s[0] == a && s[1] == b
  }

  /** How many characters the lexer takes in one step, what it puts in their place, and its next state. */
  datatype Token = Token(size: nat, text: string, next: State)

  function First(st: State, s: string): (t: Token)
    requires s != ""
    ensures 1 <= t.size <= |s| && |t.text| == t.size
  {
    var c := s[0];
    match st
    case Code =>
      if Pair(s, '/', '/') then Token(2, "  ", LineComment)
      else if Pair(s, '/', '*') then Token(2, "  ", BlockComment)
      else if Opened(c) != Code then Token(1, " ", Opened(c))
      else Token(1, [c], Code)
    case LineComment => Token(1, [Blank(c)], if c == '\n' then Code else LineComment)
    case BlockComment => if Pair(s, '*', '/') then Token(2, "  ", Code) else Token(1, [Blank(c)], BlockComment)
    case RawString => Token(1, [Blank(c)], if c == '`' then Code else RawString)
    case _ =>
      if c == '\\' && |s| >= 2 then Token(2, [' ', Blank(s[1])], st)
      else Token(1, [Blank(c)], if c == Quote(st) then Code else st)
  }

  function Lex(st: State, s: string): string
    decreases |s|
  {
    if s == "" then "" else First(st, s).text + Lex(First(st, s).next, s[First(st, s).size..])
  }

  /** The state after all of `s`. */
  function End(st: State, s: string): State
    decreases |s|
  {
    if s == "" then st else End(First(st, s).next, s[First(st, s).size..])
  }

  /** The loop over the character list. */
  method CodeOnly(source: string) returns (text: string)
    ensures text == Lex(Code, source)
  {
    var result := new char[|source|](i requires 0 <= i < |source| => source[i]);
    var index := 0;
    var state := Code;
    while index < |source|
      invariant 0 <= index <= |source|
      invariant result[..index] + Lex(state, source[index..]) == Lex(Code, source)
      invariant forall k :: index <= k < |source| ==> result[k] == source[k]
    {
      index, state := Advance(source, result, index, state);
    }
    assert source[index..] == "";
    text := result[..];
    assert text == result[..index] + "";
  }

  /** One round of the loop: what is done and what is still to do make up the same text as before. */
  method Advance(source: string, result: array<char>, index: nat, state: State) returns (next: nat, after: State)
    requires index < |source| == result.Length && forall k :: index <= k < |source| ==> result[k] == source[k]
    modifies result
    ensures forall k :: next <= k < |source| ==> result[k] == source[k]
    ensures index < next <= |source|
    ensures result[..next] + Lex(after, source[next..]) == old(result[..index]) + Lex(state, source[index..])
  {
    ghost var before, rest := result[..index], source[index..];
    next, after := OneToken(source, result, index, state);
    ghost var t := First(state, rest);
    assert rest[t.size..] == source[next..];
    assert result[..next] == before + t.text;
    Regroup(before, t.text, Lex(after, source[next..]));
  }

  lemma Regroup(a: string, b: string, c: string)
    ensures a + b + c == a + (b + c)
  {
  }

  method OneToken(source: string, result: array<char>, index: nat, state: State) returns (next: nat, after: State)
    requires index < |source| == result.Length && forall k :: index <= k < |source| ==> result[k] == source[k]
    modifies result
    ensures var t := First(state, source[index..]);
            && next == index + t.size && after == t.next
            && forall k :: index <= k < next ==> result[k] == t.text[k - index]
    ensures forall k :: 0 <= k < index ==> result[k] == old(result[k])
    ensures forall k :: next <= k < |source| ==> result[k] == source[k]
  {
    next, after := index, state;
    var c := source[index];
    var more := index + 1 < |source|;
    if state == Code {
      if c == '/' && more && source[index + 1] == '/' {
        result[index], result[index + 1] := ' ', ' ';
        next, after := index + 2, LineComment;
      } else if c == '/' && more && source[index + 1] == '*' {
        result[index], result[index + 1] := ' ', ' ';
        next, after := index + 2, BlockComment;
      } else {
        if c == '"' {
          result[index] := ' ';
          after := StringLiteral;
        } else if c == '\'' {
          result[index] := ' ';
          after := RuneLiteral;
        } else if c == '`' {
          result[index] := ' ';
          after := RawString;
        }
        next := next + 1;
      }
    } else if state == LineComment {
      if c == '\n' { after := Code; } else { result[index] := ' '; }
      next := next + 1;
    } else if state == BlockComment {
      if c == '*' && more && source[index + 1] == '/' {
        result[index], result[index + 1] := ' ', ' ';
        next, after := index + 2, Code;
      } else {
        if c != '\n' { result[index] := ' '; }
        next := next + 1;
      }
    } else if state == StringLiteral || state == RuneLiteral {
      result[index] := if c == '\n' then '\n' else ' ';
      if c == '\\' {
        if more {
          next := index + 1;
          result[next] := if source[next] == '\n' then '\n' else ' ';
        }
      } else if (state == StringLiteral && c == '"') || (state == RuneLiteral && c == '\'') {
        after := Code;
      }
      next := next + 1;
    } else {
      result[index] := if c == '\n' then '\n' else ' ';
      if c == '`' { after := Code; }
      next := next + 1;
    }
  }

  // ----- What the output is -----

  /** Every position is kept or blanked, and the line breaks are exactly where they were. */
  lemma {:induction false} KeptOrBlanked(st: State, s: string)
    ensures |Lex(st, s)| == |s|
    ensures forall i :: 0 <= i < |s| ==>
              (Lex(st, s)[i] == s[i] || Lex(st, s)[i] == ' ') && (Lex(st, s)[i] == '\n' <==> s[i] == '\n')
    decreases |s|
  {
    if s != "" {
      var t := First(st, s);
      KeptOrBlanked(t.next, s[t.size..]);
      forall i | 0 <= i < |s|
        ensures |Lex(st, s)| == |s| && (Lex(st, s)[i] == s[i] || Lex(st, s)[i] == ' ')
                  && (Lex(st, s)[i] == '\n' <==> s[i] == '\n')
      {
        if i >= t.size { assert s[i] == s[t.size..][i - t.size]; }
      }
    }
  }

  /** No quote is left, nor anything that opens a comment. */
  predicate Clean(s: string) {
    && (forall i :: 0 <= i < |s| ==> Opened(s[i]) == Code)
    && forall i :: 0 <= i < |s| - 1 ==> !(s[i] == '/' && s[i + 1] in {'/', '*'})
  }

  lemma CleanJoin(a: string, b: string)
    requires Clean(a) && Clean(b) && (a != "" && a[|a| - 1] == '/' && b != "" ==> b[0] !in {'/', '*'})
    ensures Clean(a + b)
  {
    var c := a + b;
    forall i | 0 <= i < |c| - 1 ensures !(c[i] == '/' && c[i + 1] in {'/', '*'}) {
      if i + 1 < |a| {
        assert c[i] == a[i] && c[i + 1] == a[i + 1];
      } else if i >= |a| {
        assert c[i] == b[i - |a|] && c[i + 1] == b[i + 1 - |a|];
      }
    }
  }

  lemma TokenClean(st: State, s: string)
    requires s != ""
    ensures var t := First(st, s);
            Clean(t.text) && (t.text[t.size - 1] == '/' ==> t.size == 1 && (|s| >= 2 ==> s[1] !in {'/', '*'}))
  {
  }

  lemma {:induction false} LexedIsClean(st: State, s: string)
    ensures Clean(Lex(st, s))
    decreases |s|
  {
    if s != "" {
      var t := First(st, s);
      var rest := s[t.size..];
      LexedIsClean(t.next, rest);
      KeptOrBlanked(t.next, rest);
      TokenClean(st, s);
      CleanJoin(t.text, Lex(t.next, rest));
    }
  }

  lemma {:induction false} CleanIsFixed(s: string)
    requires Clean(s)
    ensures Lex(Code, s) == s
  {
    if s != "" {
      assert Opened(s[0]) == Code && !(Pair(s, '/', '/') || Pair(s, '/', '*'));
      assert forall i :: 0 <= i < |s| - 1 ==> s[1..][i] == s[i + 1];
      CleanIsFixed(s[1..]);
      assert [s[0]] + s[1..] == s;
    }
  }

  /** A source comes back unchanged exactly if it has no literal and no comment to begin with. */
  lemma UnchangedExactly(s: string)
    ensures Lex(Code, s) == s <==> Clean(s)
  {
    LexedIsClean(Code, s);
    if Clean(s) { CleanIsFixed(s); }
  }

  lemma Idempotent(s: string)
    ensures Lex(Code, Lex(Code, s)) == Lex(Code, s)
  {
    LexedIsClean(Code, s);
    CleanIsFixed(Lex(Code, s));
  }

  lemma FirstAlone(st: State, a: string, b: string)
    requires a != "" && a[|a| - 1] !in {'/', '*', '\\'}
    ensures First(st, a + b) == First(st, a)
  {
    assert (a + b)[0] == a[0];
    if |a| >= 2 { assert (a + b)[1] == a[1]; }
  }

  /** Reading a text in two pieces gives the same as reading it at once, unless a two-character token could straddle
      the cut; in particular a source can be read line by line. */
  lemma {:induction false} InPieces(st: State, a: string, b: string)
    requires a != "" ==> a[|a| - 1] !in {'/', '*', '\\'}
    ensures Lex(st, a + b) == Lex(st, a) + Lex(End(st, a), b) && End(st, a + b) == End(End(st, a), b)
    decreases |a|
  {
    if a == "" {
      assert a + b == b;
    } else {
      var t := First(st, a);
      FirstAlone(st, a, b);
      var rest := a[t.size..];
      assert (a + b)[t.size..] == rest + b;
      assert rest != "" ==> rest[|rest| - 1] == a[|a| - 1];
      InPieces(t.next, rest, b);
      Regroup(t.text, Lex(t.next, rest), Lex(End(st, a), b));
    }
  }

  /** In front of `rest`, the tokens of `body` neither end the literal or comment they stand in nor reach into `rest`:
      an escape is one token in a string or rune, and a backslash means nothing elsewhere. */
  predicate Inside(st: State, body: string, rest: string)
    decreases |body|
  {
    && st != Code
    && (body != "" ==>
          var t := First(st, body + rest);
          t.next == st && t.size <= |body| && Inside(st, body[t.size..], rest))
  }

  /** What is inside a literal or a comment never shows: it comes out as blanks and line breaks, and reading goes on
      behind it in the same state. */
  lemma {:induction false} InsideIsBlank(st: State, body: string, rest: string)
    requires Inside(st, body, rest)
    ensures Lex(st, body + rest) == Blanks(body) + Lex(st, rest)
    decreases |body|
  {
    if body == "" {
      assert body + rest == rest;
    } else {
      var t := First(st, body + rest);
      var tail := body[t.size..];
      assert (body + rest)[t.size..] == tail + rest;
      InsideIsBlank(st, tail, rest);
      TokenIsBlank(st, body, rest);
      Prepend(t.text, body, t.size, Lex(st, tail + rest), Lex(st, rest));
    }
  }

  lemma Prepend(text: string, body: string, size: nat, lexed: string, tail: string)
    requires size <= |body| && text == Blanks(body[..size]) && lexed == Blanks(body[size..]) + tail
    ensures text + lexed == Blanks(body) + tail
  {
    BlanksJoin(body[..size], body[size..]);
    assert body == body[..size] + body[size..];
    Regroup(text, Blanks(body[size..]), tail);
  }

  lemma TokenIsBlank(st: State, body: string, rest: string)
    requires body != "" && st != Code && First(st, body + rest).next == st && First(st, body + rest).size <= |body|
    ensures First(st, body + rest).text == Blanks(body[..First(st, body + rest).size])
  {
    var t := First(st, body + rest);
    assert forall i :: 0 <= i < t.size ==> (body + rest)[i] == body[..t.size][i];
    assert forall i :: 0 <= i < t.size ==> t.text[i] == Blank(body[..t.size][i]);
  }

  lemma BlanksJoin(a: string, b: string)
    ensures Blanks(a + b) == Blanks(a) + Blanks(b)
  {
    assert forall i :: 0 <= i < |a + b| ==> (Blanks(a) + Blanks(b))[i] == Blank((a + b)[i]);
  }

  /** A whole literal, from its quote to the quote that ends it, is blanked and leaves the lexer in code. */
  lemma LiteralIsBlank(st: State, body: string, rest: string)
    requires st in {StringLiteral, RuneLiteral, RawString} && Inside(st, body, [Quote(st)] + rest)
    ensures Lex(Code, [Quote(st)] + (body + ([Quote(st)] + rest))) == " " + (Blanks(body) + (" " + Lex(Code, rest)))
  {
    InsideIsBlank(st, body, [Quote(st)] + rest);
    QuoteEnds(st, rest);
    QuoteOpens(st, body + ([Quote(st)] + rest));
  }

  lemma {:induction false} LineInside(body: string, rest: string)
    requires '\n' !in body
    ensures Inside(LineComment, body, rest)
  {
    if body != "" {
      assert body[0] in body && forall c <- body[1..] :: c in body;
      LineInside(body[1..], rest);
    }
  }

  /** A line comment is blank up to its line break, and code goes on behind that. */
  lemma LineCommentEnds(body: string, rest: string)
    requires '\n' !in body
    ensures Lex(Code, "//" + (body + ("\n" + rest))) == "  " + (Blanks(body) + ("\n" + Lex(Code, rest)))
  {
    LineInside(body, "\n" + rest);
    InsideIsBlank(LineComment, body, "\n" + rest);
    assert ("\n" + rest)[1..] == rest;
    assert ("//" + (body + ("\n" + rest)))[2..] == body + ("\n" + rest);
  }

  lemma {:induction false} BlockInside(body: string, rest: string)
    requires forall i :: 0 <= i < |body| - 1 ==> !(body[i] == '*' && body[i + 1] == '/')
    requires rest != "" ==> rest[0] != '/'
    ensures Inside(BlockComment, body, rest)
  {
    if body != "" {
      assert forall i :: 0 <= i < |body| - 1 ==> body[1..][i] == body[i + 1];
      assert |body + rest| >= 2 ==> (body + rest)[1] == if |body| >= 2 then body[1] else rest[0];
      BlockInside(body[1..], rest);
    }
  }

  /** A block comment is blank up to the first end mark, line breaks aside, and code goes on behind that. */
  lemma BlockCommentEnds(body: string, rest: string)
    requires forall i :: 0 <= i < |body| - 1 ==> !(body[i] == '*' && body[i + 1] == '/')
    ensures Lex(Code, "/*" + (body + ("*/" + rest))) == "  " + (Blanks(body) + ("  " + Lex(Code, rest)))
  {
    BlockInside(body, "*/" + rest);
    InsideIsBlank(BlockComment, body, "*/" + rest);
    assert ("*/" + rest)[2..] == rest;
    assert ("/*" + (body + ("*/" + rest)))[2..] == body + ("*/" + rest);
  }

  lemma QuoteOpens(st: State, text: string)
    requires st in {StringLiteral, RuneLiteral, RawString}
    ensures Lex(Code, [Quote(st)] + text) == " " + Lex(st, text)
  {
    assert ([Quote(st)] + text)[1..] == text;
  }

  lemma QuoteEnds(st: State, text: string)
    requires st in {StringLiteral, RuneLiteral, RawString}
    ensures Lex(st, [Quote(st)] + text) == " " + Lex(Code, text)
  {
    assert ([Quote(st)] + text)[1..] == text;
  }

  function Blanks(s: string): (r: string)
    ensures |r| == |s| && forall i :: 0 <= i < |s| ==> r[i] == Blank(s[i])
  {
    if s == "" then "" else [Blank(s[0])] + Blanks(s[1..])
  }
}
