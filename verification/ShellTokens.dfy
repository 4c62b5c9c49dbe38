/** The shell tokenizer (media/shell_source.go). A byte is modelled as a char. */
module ShellTokens {

  type Bytes = seq<char>

  predicate IsSpace(c: char) { c == ' ' || c == '\t' || c == '\n' }

  /** A backslash that takes the next byte literally. */
  predicate IsEscape(s: Bytes) {
    |s| > 1 && s[0] == '\\' && (s[1] == '"' || s[1] == '\\')
  }

  /** A token is emitted unless it is empty. */
  function Flush(cur: Bytes): seq<Bytes> {
    if cur == [] then [] else [cur]
  }

  /** The tokens of `s` when `cur` has been read of the current one. */
  function Tokens(s: Bytes, cur: Bytes, inQuote: bool): seq<Bytes>
    decreases |s|
  {
    if s == [] then Flush(cur)
    else if IsEscape(s) then Tokens(s[2..], cur + [s[1]], inQuote)
    else if s[0] == '"' then Tokens(s[1..], cur, !inQuote)
    else if IsSpace(s[0]) && !inQuote then Flush(cur) + Tokens(s[1..], [], inQuote)
    else Tokens(s[1..], cur + [s[0]], inQuote)
  }

  method TokenizeShell(s: Bytes) returns (out: seq<Bytes>)
    ensures out == Tokens(s, [], false)
  {
    out := [];
    var cur: Bytes := [];
    var inQuote := false;
    var i := 0;
    while i < |s|
      invariant 0 <= i <= |s|
      invariant out + Tokens(s[i..], cur, inQuote) == Tokens(s, [], false)
    {
      var c := s[i];
      ghost var rest := s[i..];
      assert rest[1..] == s[i + 1..] && (i + 2 <= |s| ==> rest[2..] == s[i + 2..]);
      if c == '\\' && i + 1 < |s| && (s[i + 1] == '"' || s[i + 1] == '\\') {
        cur := cur + [s[i + 1]];
        i := i + 2;
        continue;
      }
      if c == '"' {
        inQuote := !inQuote;
      } else if (c == ' ' || c == '\t' || c == '\n') && !inQuote {
        if cur != [] {
          out := out + [cur];
        }
        cur := [];
      } else {
        cur := cur + [c];
      }
      i := i + 1;
    }
    if cur != [] {
      out := out + [cur];
    }
  }

  // ---------------------------------------------------------------- quoting is undone

  function Escaped(w: Bytes): Bytes {
    if w == [] then [] else (if w[0] == '"' || w[0] == '\\' then ['\\', w[0]] else [w[0]]) + Escaped(w[1..])
  }

  function Quoted(w: Bytes): Bytes { ['"'] + Escaped(w) + ['"'] }

  /** The quoted words, joined with spaces. */
  function Printed(ws: seq<Bytes>): Bytes {
    if ws == [] then []
    else if |ws| == 1 then Quoted(ws[0])
    else Quoted(ws[0]) + ([' '] + Printed(ws[1..]))
  }

  function NonEmpty(ws: seq<Bytes>): seq<Bytes> {
    if ws == [] then []
    else if ws[0] == [] then NonEmpty(ws[1..])
    else [ws[0]] + NonEmpty(ws[1..])
  }

  lemma ReadsEscapedByte(c: char, tail: Bytes, cur: Bytes)
    ensures Tokens((if c == '"' || c == '\\' then ['\\', c] else [c]) + tail, cur, true) == Tokens(tail, cur + [c], true)
  {
    if c == '"' || c == '\\' {
      var s := ['\\', c] + tail;
      assert s[2..] == tail;
    } else {
      var s := [c] + tail;
      assert s[1..] == tail;
    }
  }

  lemma {:induction false} ReadsEscaped(w: Bytes, rest: Bytes, cur: Bytes)
    ensures Tokens(Escaped(w) + rest, cur, true) == Tokens(rest, cur + w, true)
    decreases |w|
  {
    if w == [] {
      assert Escaped(w) + rest == rest && cur + w == cur;
    } else {
      var head := if w[0] == '"' || w[0] == '\\' then ['\\', w[0]] else [w[0]];
      assert Escaped(w) + rest == head + (Escaped(w[1..]) + rest);
      ReadsEscapedByte(w[0], Escaped(w[1..]) + rest, cur);
      ReadsEscaped(w[1..], rest, cur + [w[0]]);
      assert cur + [w[0]] + w[1..] == cur + w;
    }
  }

  lemma ReadsQuoted(w: Bytes, rest: Bytes)
    ensures Tokens(Quoted(w) + rest, [], false) == Tokens(rest, w, false)
  {
    var s := Quoted(w) + rest;
    assert s == ['"'] + (Escaped(w) + (['"'] + rest));
    assert s[1..] == Escaped(w) + (['"'] + rest);
    ReadsEscaped(w, ['"'] + rest, []);
    assert [] + w == w;
    assert (['"'] + rest)[1..] == rest;
  }

  /** Tokenizing undoes quoting: wrapping each word in double quotes with `"` and `\` escaped, joining
      with spaces and tokenizing gives the words back, without the empty ones. */
  lemma {:induction false} TokenizeUndoesQuoting(ws: seq<Bytes>)
    ensures Tokens(Printed(ws), [], false) == NonEmpty(ws)
    decreases |ws|
  {
    if |ws| == 1 {
      ReadsQuoted(ws[0], []);
      assert Quoted(ws[0]) + [] == Quoted(ws[0]);
      assert NonEmpty(ws[1..]) == [];
    } else if |ws| > 1 {
      var rest := [' '] + Printed(ws[1..]);
      ReadsQuoted(ws[0], rest);
      assert rest[1..] == Printed(ws[1..]);
      TokenizeUndoesQuoting(ws[1..]);
    }
  }

  // ---------------------------------------------------------------- words without quotes

  predicate IsPlain(w: Bytes) {
    forall i | 0 <= i < |w| :: w[i] != ' ' && w[i] != '\t' && w[i] != '\n' && w[i] != '"' && w[i] != '\\'
  }

  /** The words with a separator after each but the last. */
  function Separated(ws: seq<Bytes>, seps: Bytes): Bytes
    requires |ws| <= |seps|
  {
    if ws == [] then []
    else if |ws| == 1 then ws[0]
    else ws[0] + ([seps[0]] + Separated(ws[1..], seps[1..]))
  }

  lemma {:induction false} ReadsPlain(w: Bytes, rest: Bytes, cur: Bytes)
    requires IsPlain(w)
    ensures Tokens(w + rest, cur, false) == Tokens(rest, cur + w, false)
    decreases |w|
  {
    if w == [] {
      assert w + rest == rest && cur + w == cur;
    } else {
      assert (w + rest)[1..] == w[1..] + rest && (w + rest)[0] == w[0];
      ReadsPlain(w[1..], rest, cur + [w[0]]);
      assert cur + [w[0]] + w[1..] == cur + w;
    }
  }

  /** Blank, tab and newline all separate: words without special bytes, with any one of these between each
      two, are the tokens, without the empty ones. */
  lemma {:induction false} PlainWordsSplit(ws: seq<Bytes>, seps: Bytes)
    requires |ws| <= |seps| && forall i | 0 <= i < |ws| :: IsPlain(ws[i])
    requires forall i | 0 <= i < |seps| :: seps[i] == ' ' || seps[i] == '\t' || seps[i] == '\n'
    ensures Tokens(Separated(ws, seps), [], false) == NonEmpty(ws)
    decreases |ws|
  {
    if |ws| == 1 {
      ReadsPlain(ws[0], [], []);
      assert ws[0] + [] == ws[0] && [] + ws[0] == ws[0];
      assert NonEmpty(ws[1..]) == [];
    } else if |ws| > 1 {
      var rest := [seps[0]] + Separated(ws[1..], seps[1..]);
      ReadsPlain(ws[0], rest, []);
      assert [] + ws[0] == ws[0];
      assert rest[1..] == Separated(ws[1..], seps[1..]);
      PlainWordsSplit(ws[1..], seps[1..]);
    }
  }

  /** What one step reads, in and out of quotes: a quote opens or closes; a backslash takes a quote or a
      backslash literally, and stays in front of anything else and at the end; a blank, tab or newline stays
      inside quotes; any other byte stays. */
  lemma ReadsOneByte(c: char, rest: Bytes, cur: Bytes, inQuote: bool)
    ensures Tokens(['"'] + rest, cur, inQuote) == Tokens(rest, cur, !inQuote)
    ensures Tokens(['\\', '"'] + rest, cur, inQuote) == Tokens(rest, cur + ['"'], inQuote)
    ensures Tokens(['\\', '\\'] + rest, cur, inQuote) == Tokens(rest, cur + ['\\'], inQuote)
    ensures rest == [] || (rest[0] != '"' && rest[0] != '\\') ==>
              Tokens(['\\'] + rest, cur, inQuote) == Tokens(rest, cur + ['\\'], inQuote)
    ensures c == ' ' || c == '\t' || c == '\n' ==> Tokens([c] + rest, cur, true) == Tokens(rest, cur + [c], true)
    ensures IsPlain([c]) ==> Tokens([c] + rest, cur, inQuote) == Tokens(rest, cur + [c], inQuote)
  {
    assert (['"'] + rest)[1..] == rest && (['\\'] + rest)[1..] == rest && ([c] + rest)[1..] == rest;
    assert (['\\', '"'] + rest)[2..] == rest && (['\\', '\\'] + rest)[2..] == rest;
    assert IsPlain([c]) ==> [c][0] != '"' && [c][0] != '\\' && !IsSpace([c][0]);
  }

  // ---------------------------------------------------------------- printed tokens read back

  predicate AllNonEmpty(ws: seq<Bytes>) { forall i | 0 <= i < |ws| :: ws[i] != [] }

  lemma {:induction false} TokensAreNonEmpty(s: Bytes, cur: Bytes, inQuote: bool)
    ensures AllNonEmpty(Tokens(s, cur, inQuote))
    decreases |s|
  {
    if s != [] {
      if IsEscape(s) {
        TokensAreNonEmpty(s[2..], cur + [s[1]], inQuote);
      } else if s[0] == '"' {
        TokensAreNonEmpty(s[1..], cur, !inQuote);
      } else if IsSpace(s[0]) && !inQuote {
        TokensAreNonEmpty(s[1..], [], inQuote);
      } else {
        TokensAreNonEmpty(s[1..], cur + [s[0]], inQuote);
      }
    }
  }

  lemma {:induction false} NonEmptyKeeps(ws: seq<Bytes>)
    requires AllNonEmpty(ws)
    ensures NonEmpty(ws) == ws
  {
    if ws != [] {
      NonEmptyKeeps(ws[1..]);
    }
  }

  /** Hence tokenize, print, tokenize is tokenize, for every input. */
  lemma PrintedTokensReadBack(s: Bytes)
    ensures Tokens(Printed(Tokens(s, [], false)), [], false) == Tokens(s, [], false)
  {
    var ws := Tokens(s, [], false);
    TokensAreNonEmpty(s, [], false);
    NonEmptyKeeps(ws);
    TokenizeUndoesQuoting(ws);
  }

  // ---------------------------------------------------------------- escapes outside quotes

  /** The tokens as the comment on tokenizeShell describes them: escapes work inside quotes only. */
  function Documented(s: Bytes, cur: Bytes, inQuote: bool): seq<Bytes>
    decreases |s|
  {
    if s == [] then Flush(cur)
    else if IsEscape(s) && inQuote then Documented(s[2..], cur + [s[1]], inQuote)
    else if s[0] == '"' then Documented(s[1..], cur, !inQuote)
    else if IsSpace(s[0]) && !inQuote then Flush(cur) + Documented(s[1..], [], inQuote)
    else Documented(s[1..], cur + [s[0]], inQuote)
  }

  /** No backslash outside quotes is followed by a quote or a backslash. */
  predicate NoEscapeOutside(s: Bytes, inQuote: bool)
    decreases |s|
  {
    if s == [] then true
    else if IsEscape(s) then inQuote && NoEscapeOutside(s[2..], inQuote)
    else if s[0] == '"' then NoEscapeOutside(s[1..], !inQuote)
    else NoEscapeOutside(s[1..], inQuote)
  }

  /** The token being read is the first one, and goes on from what has been read of it. */
  lemma {:induction false} FirstToken(s: Bytes, cur: Bytes, inQuote: bool)
    requires cur != []
    ensures var ws := Tokens(s, cur, inQuote); ws != [] && cur <= ws[0]
    ensures var ws := Documented(s, cur, inQuote); ws != [] && cur <= ws[0]
    decreases |s|
  {
    if s != [] && !(s[0] == '"' || (IsSpace(s[0]) && !inQuote)) {
      FirstToken(s[1..], cur + [s[0]], inQuote);
      if IsEscape(s) {
        FirstToken(s[2..], cur + [s[1]], inQuote);
      }
    } else if s != [] && s[0] == '"' {
      FirstToken(s[1..], cur, !inQuote);
    }
  }

  /** Two readings of the same token that differ in one byte lead to different tokens. */
  lemma Diverge(s: Bytes, c: Bytes, a: char, s': Bytes, d: Bytes, inQuote: bool, inQuote': bool)
    requires |c| < |d| && d[|c|] != a
    ensures Tokens(s, c + [a], inQuote) != Documented(s', d, inQuote')
  {
    FirstToken(s, c + [a], inQuote);
    FirstToken(s', d, inQuote');
    var x, y := Tokens(s, c + [a], inQuote)[0], Documented(s', d, inQuote')[0];
    assert (c + [a])[|c|] == x[|c|] && d[|c|] == y[|c|];
  }

  /** A reading that is ahead by backslashes stays ahead, or differs in some other byte. */
  lemma {:induction false} AheadDiffers(s: Bytes, c: Bytes, d: Bytes, inQuote: bool)
    requires c != [] && |c| < |d| && c <= d && forall i | |c| <= i < |d| :: d[i] == '\\'
    ensures Tokens(s, c, inQuote) != Documented(s, d, inQuote)
    decreases |s|
  {
    if s == [] {
    } else if IsEscape(s) {
      if inQuote {
        if s[1] == '\\' {
          AheadDiffers(s[2..], c + [s[1]], d + [s[1]], inQuote);
        } else {
          Diverge(s[2..], c, s[1], s[2..], d + [s[1]], inQuote, inQuote);
        }
      } else if s[1] == '\\' {
        OutsidePair(s, d);
        AheadDiffers(s[2..], c + ['\\'], d + ['\\', '\\'], inQuote);
      } else {
        Diverge(s[2..], c, '"', s[1..], d + ['\\'], inQuote, inQuote);
      }
    } else if s[0] == '"' {
      AheadDiffers(s[1..], c, d, !inQuote);
    } else if IsSpace(s[0]) && !inQuote {
      assert Tokens(s, c, inQuote)[0] == c && Documented(s, d, inQuote)[0] == d;
    } else if s[0] == '\\' {
      AheadDiffers(s[1..], c + [s[0]], d + [s[0]], inQuote);
    } else {
      Diverge(s[1..], c, s[0], s[1..], d + [s[0]], inQuote, inQuote);
    }
  }

  /** As documented, two backslashes outside quotes are two backslashes. */
  lemma OutsidePair(s: Bytes, d: Bytes)
    requires IsEscape(s) && s[1] == '\\'
    ensures Documented(s, d, false) == Documented(s[2..], d + ['\\', '\\'], false)
  {
    assert s[1..][0] == '\\' && s[1..][1..] == s[2..];
    assert d + ['\\'] + ['\\'] == d + ['\\', '\\'];
  }

  /** The tokenizer does what its comment says exactly on the inputs without an escape outside quotes. */
  lemma {:induction false} DocumentedExactly(s: Bytes, cur: Bytes, inQuote: bool)
    ensures Tokens(s, cur, inQuote) == Documented(s, cur, inQuote) <==> NoEscapeOutside(s, inQuote)
    decreases |s|
  {
    if s == [] {
    } else if IsEscape(s) {
      if inQuote {
        DocumentedExactly(s[2..], cur + [s[1]], inQuote);
      } else if s[1] == '"' {
        Diverge(s[2..], cur, '"', s[1..], cur + ['\\'], inQuote, inQuote);
      } else {
        OutsidePair(s, cur);
        AheadDiffers(s[2..], cur + ['\\'], cur + ['\\', '\\'], inQuote);
      }
    } else if s[0] == '"' {
      DocumentedExactly(s[1..], cur, !inQuote);
    } else if IsSpace(s[0]) && !inQuote {
      DocumentedExactly(s[1..], [], inQuote);
      SamePrefix(Flush(cur), Tokens(s[1..], [], inQuote), Documented(s[1..], [], inQuote));
    } else {
      DocumentedExactly(s[1..], cur + [s[0]], inQuote);
    }
  }

  lemma SamePrefix(a: seq<Bytes>, x: seq<Bytes>, y: seq<Bytes>)
    ensures a + x == a + y <==> x == y
  {
    assert x == (a + x)[|a|..] && y == (a + y)[|a|..];
  }

  /** An escape outside quotes: two backslashes are read as one, and documented as two. */
  lemma EscapeOutsideIsTaken(s: Bytes)
    requires s == ['\\', '\\']
    ensures Tokens(s, [], false) == [['\\']] && Documented(s, [], false) == [['\\', '\\']]
  {
    assert IsEscape(s) && s[2..] == [];
    assert Tokens(s, [], false) == Tokens(s[2..], [] + [s[1]], false);
    OutsidePair(s, []);
    assert [] + [s[1]] == ['\\'] && [] + ['\\', '\\'] == ['\\', '\\'];
    assert Tokens([], ['\\'], false) == Flush(['\\']);
    assert Documented([], ['\\', '\\'], false) == Flush(['\\', '\\']);
  }
}
