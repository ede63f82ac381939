/** The tokenizer of the shell (split_line in main.c, with strtok).

    strtok ends each token by writing '\0' over the separator that follows it. Here the
    line is never written: a token is the range (offset, length) of the line it covers,
    and the argument vector is the NULL-terminated array of those ranges. */
module Tokenizer {
  import opened Options
  import opened Memory

  /** The initial number of slots of the token array and the amount it grows by. */
  const TOKEN_BUFFER_SIZE: nat := 64
  /** TOKEN_SEPARATOR: space, tab, carriage return, newline and bell. */
  const SEPARATORS: string := " \t\r\n\U{7}"

  predicate IsSeparator(c: char) {
    c in SEPARATORS
  }

  /** A token: the characters line[offset .. offset + length]. */
  datatype Token = Token(offset: nat, length: nat)

  predicate InLine(line: string, t: Token) {
    t.offset + t.length <= |line|
  }

  /** The characters a token covers. */
  function Text(line: string, t: Token): (s: string)
    requires InLine(line, t)
    ensures |s| == t.length
  {
    line[t.offset .. t.offset + t.length]
  }

  /** The texts of a sequence of tokens. */
  function Texts(line: string, ts: seq<Token>): (r: seq<string>)
    requires forall k :: 0 <= k < |ts| ==> InLine(line, ts[k])
    ensures |r| == |ts|
  {
    seq(|ts|, k requires 0 <= k < |ts| => Text(line, ts[k]))
  }

  /** The specification of a token: a non-empty run of non-separators that cannot be
      extended on either side. */
  predicate IsMaximalRun(line: string, t: Token) {
    0 < t.length && InLine(line, t)
    && (forall k :: t.offset <= k < t.offset + t.length ==> !IsSeparator(line[k]))
    && (t.offset == 0 || IsSeparator(line[t.offset - 1]))
    && (t.offset + t.length == |line| || IsSeparator(line[t.offset + t.length]))
  }

  /** The first position at or after i that is not a separator (|line| if none is). */
  function SkipSeparators(line: string, i: nat): (j: nat)
    requires i <= |line|
    ensures i <= j <= |line|
    ensures forall k :: i <= k < j ==> IsSeparator(line[k])
    ensures j < |line| ==> !IsSeparator(line[j])
    decreases |line| - i
  {
    if i == |line| || !IsSeparator(line[i]) then i else SkipSeparators(line, i + 1)
  }

  /** The first position at or after i that is a separator (|line| if none is). */
  function RunEnd(line: string, i: nat): (j: nat)
    requires i <= |line|
    ensures i <= j <= |line|
    ensures forall k :: i <= k < j ==> !IsSeparator(line[k])
    ensures j < |line| ==> IsSeparator(line[j])
    decreases |line| - i
  {
    if i == |line| || IsSeparator(line[i]) then i else RunEnd(line, i + 1)
  }

  /** A position strtok can resume from: the start of the line, its end, or just after a
      separator (the one the previous call overwrote). */
  predicate IsResumePoint(line: string, i: nat) {
    i <= |line| && (i == 0 || i == |line| || IsSeparator(line[i - 1]))
  }

  /** One call of strtok with its saved position `save`: skip separators; at the end of
      the line there is no token (NULL); otherwise the token runs up to the next separator,
      which strtok overwrites with '\0' and steps over, so the next call starts after it. */
  function StrTok(line: string, save: nat): (r: (Option<Token>, nat))
    requires IsResumePoint(line, save)
    ensures IsResumePoint(line, r.1)
    ensures r.0.None? <==> SkipSeparators(line, save) == |line|
    ensures r.0.None? ==> r.1 == |line|
    ensures r.0.Some? ==> save <= r.0.value.offset && save < r.1 && InLine(line, r.0.value)
  {
    var s := SkipSeparators(line, save);
    if s == |line| then (None, |line|)
    else
      var e := RunEnd(line, s);
      (Some(Token(s, e - s)), if e < |line| then e + 1 else e)
  }

  /** strtok returns the first maximal run at or after its saved position, having skipped
      only separators, and saves the position after the separator that ends the run; it
      returns NULL exactly when only separators are left. */
  lemma StrTokFindsNextRun(line: string, save: nat)
    requires IsResumePoint(line, save)
    ensures var (tok, next) := StrTok(line, save);
      && (tok.None? <==> forall k :: save <= k < |line| ==> IsSeparator(line[k]))
      && (tok.Some? ==> IsMaximalRun(line, tok.value) && save <= tok.value.offset)
      && (tok.Some? ==> forall k :: save <= k < tok.value.offset ==> IsSeparator(line[k]))
      && (tok.Some? ==> var end := tok.value.offset + tok.value.length;
            (end < |line| ==> next == end + 1) && (end == |line| ==> next == end))
  {
  }

  /** The tokens the successive strtok calls return from the saved position `save` on. */
  function TokensFrom(line: string, save: nat): (r: seq<Token>)
    requires IsResumePoint(line, save)
    ensures forall k :: 0 <= k < |r| ==> InLine(line, r[k])
    decreases |line| - save
  {
    var (tok, next) := StrTok(line, save);
    match tok
    case None => []
    case Some(t) => [t] + TokensFrom(line, next)
  }

  lemma TokensFromStep(line: string, save: nat)
    requires IsResumePoint(line, save)
    ensures StrTok(line, save).0.None? ==> TokensFrom(line, save) == []
    ensures StrTok(line, save).0.Some? ==>
              TokensFrom(line, save) == [StrTok(line, save).0.value] + TokensFrom(line, StrTok(line, save).1)
  {
  }

  /** One more strtok call continues a known suffix of a token sequence. */
  lemma NextTokenOfSuffix(all: seq<Token>, i: nat, line: string, save: nat)
    requires IsResumePoint(line, save)
    requires i <= |all| && all[i..] == TokensFrom(line, save)
    ensures StrTok(line, save).0.None? ==> i == |all|
    ensures StrTok(line, save).0.Some? ==>
              (i < |all| && all[i] == StrTok(line, save).0.value
               && all[i + 1..] == TokensFrom(line, StrTok(line, save).1))
  {
    TokensFromStep(line, save);
    if i < |all| {
      assert all[i..][0] == all[i];
      assert all[i..][1..] == all[i + 1..];
    }
  }

  /** The tokens of a line, left to right. */
  function Tokens(line: string): seq<Token> {
    TokensFrom(line, 0)
  }

  /** The words of a line: the texts of its tokens. */
  function Words(line: string): seq<string> {
    Texts(line, Tokens(line))
  }

  /** The tokens strtok returns from a resume point on are maximal runs, lie at or after
      it, and each ends before the next begins. */
  lemma {:induction false} TokensFromSound(line: string, save: nat)
    requires IsResumePoint(line, save)
    ensures forall k :: 0 <= k < |TokensFrom(line, save)| ==>
              IsMaximalRun(line, TokensFrom(line, save)[k]) && save <= TokensFrom(line, save)[k].offset
    ensures forall j, k :: 0 <= j < k < |TokensFrom(line, save)| ==>
              TokensFrom(line, save)[j].offset + TokensFrom(line, save)[j].length < TokensFrom(line, save)[k].offset
    decreases |line| - save
  {
    var (tok, next) := StrTok(line, save);
    StrTokFindsNextRun(line, save);
    if tok.Some? {
      TokensFromSound(line, next);
    }
  }

  /** Two maximal runs that start at the same position are the same run. */
  lemma MaximalRunAt(line: string, a: Token, b: Token)
    requires IsMaximalRun(line, a) && IsMaximalRun(line, b) && a.offset == b.offset
    ensures a == b
  {
  }

  /** Every maximal run at or after a resume point is among the tokens strtok returns
      from there. */
  lemma {:induction false} TokensFromComplete(line: string, save: nat, t: Token)
    requires IsResumePoint(line, save)
    requires IsMaximalRun(line, t) && save <= t.offset
    ensures t in TokensFrom(line, save)
    decreases |line| - save
  {
    var (tok, next) := StrTok(line, save);
    StrTokFindsNextRun(line, save);
    TokensFromStep(line, save);
    assert !IsSeparator(line[t.offset]);
    assert tok.Some?;
    if tok.value.offset < t.offset {
      assert IsSeparator(line[t.offset - 1]);
      TokensFromComplete(line, next, t);
    } else {
      MaximalRunAt(line, tok.value, t);
    }
  }

  /** The tokens of a line are exactly its maximal runs of non-separators, in left to
      right order: every token is one, every one is a token, and each token ends before
      the next begins. */
  lemma TokensAreMaximalRuns(line: string)
    ensures forall k :: 0 <= k < |Tokens(line)| ==> IsMaximalRun(line, Tokens(line)[k])
    ensures forall t :: IsMaximalRun(line, t) ==> t in Tokens(line)
    ensures forall j, k :: 0 <= j < k < |Tokens(line)| ==>
              Tokens(line)[j].offset + Tokens(line)[j].length < Tokens(line)[k].offset
  {
    TokensFromSound(line, 0);
    forall t | IsMaximalRun(line, t) ensures t in Tokens(line) {
      TokensFromComplete(line, 0, t);
    }
  }

  /** A line yields no token exactly when it is empty or made of separators only, so the
      NULL sentinel then sits at index 0. */
  lemma NoTokensIffBlank(line: string)
    ensures Tokens(line) == [] <==> forall k :: 0 <= k < |line| ==> IsSeparator(line[k])
  {
  }

  /** Growing the token array by one chunk keeps its capacity a whole number of chunks. */
  /** One round of the split_line loop on the token array: `tokens[position] = token;
      position++`, then the realloc by TOKEN_BUFFER_SIZE slots when the count reaches the
      capacity. */
  method StoreToken(tokens: array<Option<Token>>, position: nat, token: Option<Token>)
    returns (stored: array<Option<Token>>)
    requires position < tokens.Length
    requires tokens.Length % TOKEN_BUFFER_SIZE == 0 && tokens.Length - TOKEN_BUFFER_SIZE <= position
    modifies tokens
    ensures stored == tokens || fresh(stored)
    ensures position + 1 < stored.Length
    ensures stored.Length % TOKEN_BUFFER_SIZE == 0 && stored.Length - TOKEN_BUFFER_SIZE <= position + 1
    ensures stored.Length == if position + 1 >= tokens.Length then tokens.Length + TOKEN_BUFFER_SIZE else tokens.Length
    ensures stored[..position + 1] == old(tokens[..position]) + [token]
  {
    tokens[position] := token;
    stored := tokens;
    if position + 1 >= tokens.Length {
      stored := Realloc(tokens, tokens.Length + TOKEN_BUFFER_SIZE, None);
    }
  }

  /** The slots that hold a sequence of tokens, in order. */
  function Filled(ts: seq<Token>): (r: seq<Option<Token>>)
    ensures |r| == |ts| && forall k :: 0 <= k < |ts| ==> r[k] == Some(ts[k])
  {
    seq(|ts|, k requires 0 <= k < |ts| => Some(ts[k]))
  }

  lemma FilledStep(ts: seq<Token>, i: nat)
    requires i < |ts|
    ensures Filled(ts[..i + 1]) == Filled(ts[..i]) + [Some(ts[i])]
  {
  }

  /** split_line: gathers the tokens of successive strtok calls into an array that starts
      with TOKEN_BUFFER_SIZE slots and grows by TOKEN_BUFFER_SIZE whenever the count reaches
      the capacity, then stores the NULL sentinel after the last token. Returns the array
      and the number of tokens before the sentinel. `line` is the C string strtok scans,
      so it holds no '\0'. */
  method SplitLine(line: string) returns (tokens: array<Option<Token>>, count: nat)
    requires '\0' !in line
    ensures fresh(tokens)
    ensures count == |Tokens(line)| && count < tokens.Length
    ensures forall k :: 0 <= k < count ==> tokens[k] == Some(Tokens(line)[k])
    ensures tokens[count] == None
    ensures tokens.Length % TOKEN_BUFFER_SIZE == 0
    ensures tokens.Length - TOKEN_BUFFER_SIZE <= count
  {
    var position := 0;
    tokens := new Option<Token>[TOKEN_BUFFER_SIZE](_ => None);
    ghost var all := Tokens(line);
    var call := StrTok(line, 0);
    NextTokenOfSuffix(all, 0, line, 0);
    var token, save := call.0, call.1;
    while token.Some?
      invariant fresh(tokens)
      invariant IsResumePoint(line, save)
      invariant position < tokens.Length && position <= |all|
      invariant tokens.Length % TOKEN_BUFFER_SIZE == 0 && tokens.Length - TOKEN_BUFFER_SIZE <= position
      invariant tokens[..position] == Filled(all[..position])
      invariant token == if position < |all| then Some(all[position]) else None
      invariant position < |all| ==> all[position + 1..] == TokensFrom(line, save)
      decreases |all| - position
    {
      tokens := StoreToken(tokens, position, token);
      FilledStep(all, position);
      position := position + 1;
      call := StrTok(line, save);
      NextTokenOfSuffix(all, position, line, save);
      token, save := call.0, call.1;
    }
    assert all[..position] == all;
    ghost var filled := tokens[..position];
    tokens[position] := None;
    count := position;
    assert forall k :: 0 <= k < count ==> tokens[k] == filled[k];
  }

  /** The argument vector as its reader sees it: the strings of the slots before the
      NULL sentinel. */
  function ArgVector(line: string, slots: seq<Option<Token>>): (args: seq<string>)
    requires forall k :: 0 <= k < |slots| && slots[k].Some? ==> InLine(line, slots[k].value)
    ensures |args| <= |slots|
    ensures forall k :: 0 <= k < |args| ==> slots[k].Some? && args[k] == Text(line, slots[k].value)
    ensures |args| < |slots| ==> slots[|args|].None?
  {
    if slots == [] || slots[0].None? then [] else [Text(line, slots[0].value)] + ArgVector(line, slots[1..])
  }

  /** The argument vector split_line builds holds the words of the line. */
  lemma ArgVectorOfSplit(line: string, slots: seq<Option<Token>>)
    requires |Tokens(line)| < |slots| && slots[|Tokens(line)|] == None
    requires forall k :: 0 <= k < |Tokens(line)| ==> slots[k] == Some(Tokens(line)[k])
    requires forall k :: 0 <= k < |slots| && slots[k].Some? ==> InLine(line, slots[k].value)
    ensures ArgVector(line, slots) == Words(line)
  {
  }

  /** A word: a non-empty string without separators. */
  predicate IsWord(w: string) {
    0 < |w| && forall k :: 0 <= k < |w| ==> !IsSeparator(w[k])
  }

  /** Words joined by single spaces, as a user types a command line. */
  function JoinWords(ws: seq<string>): string {
    if |ws| == 0 then "" else if |ws| == 1 then ws[0] else ws[0] + " " + JoinWords(ws[1..])
  }

  /** The run starting at i ends exactly where the non-separators stop. */
  lemma RunEndAt(line: string, i: nat, n: nat)
    requires i + n <= |line|
    requires forall k :: i <= k < i + n ==> !IsSeparator(line[k])
    requires i + n == |line| || IsSeparator(line[i + n])
    ensures RunEnd(line, i) == i + n
  {
  }

  /** strtok at the start of a word that is followed by a space or the end of the line
      returns that word and resumes after the space. */
  lemma StrTokAtWord(line: string, save: nat, w: string)
    requires IsResumePoint(line, save) && IsWord(w)
    requires save + |w| <= |line| && line[save..save + |w|] == w
    requires save + |w| == |line| || line[save + |w|] == ' '
    ensures StrTok(line, save) == (Some(Token(save, |w|)), if save + |w| < |line| then save + |w| + 1 else |line|)
  {
    assert line[save] == w[0];
    forall k | save <= k < save + |w| ensures !IsSeparator(line[k]) {
      assert line[k] == w[k - save];
    }
    RunEndAt(line, save, |w|);
  }

  lemma TextsCons(line: string, ts: seq<Token>, t: Token, rest: seq<Token>, ws: seq<string>)
    requires ts == [t] + rest && ws != []
    requires InLine(line, t) && forall k :: 0 <= k < |rest| ==> InLine(line, rest[k])
    requires Text(line, t) == ws[0] && Texts(line, rest) == ws[1..]
    ensures Texts(line, ts) == ws
  {
  }

  /** Where a joined line holds its first word, and where the rest of it starts. */
  lemma JoinWordsAt(line: string, save: nat, ws: seq<string>)
    requires save <= |line| && line[save..] == JoinWords(ws) && ws != []
    ensures save + |ws[0]| <= |line| && line[save..save + |ws[0]|] == ws[0]
    ensures save + |ws[0]| == |line| <==> |ws| == 1
    ensures save + |ws[0]| < |line| ==> line[save + |ws[0]|] == ' '
    ensures line[if |ws| == 1 then |line| else save + |ws[0]| + 1..] == JoinWords(ws[1..])
  {
  }

  /** On a joined line, strtok returns the first word and resumes at the join of the
      other words. */
  lemma JoinStep(line: string, save: nat, ws: seq<string>) returns (next: nat)
    requires IsResumePoint(line, save) && ws != []
    requires line[save..] == JoinWords(ws)
    requires forall k :: 0 <= k < |ws| ==> IsWord(ws[k])
    ensures IsResumePoint(line, next) && next <= |line| && line[next..] == JoinWords(ws[1..])
    ensures InLine(line, Token(save, |ws[0]|)) && Text(line, Token(save, |ws[0]|)) == ws[0]
    ensures TokensFrom(line, save) == [Token(save, |ws[0]|)] + TokensFrom(line, next)
  {
    var w := ws[0];
    JoinWordsAt(line, save, ws);
    StrTokAtWord(line, save, w);
    next := StrTok(line, save).1;
    TokensFromStep(line, save);
  }

  lemma {:induction false} TokensFromJoin(line: string, save: nat, ws: seq<string>)
    requires IsResumePoint(line, save)
    requires line[save..] == JoinWords(ws)
    requires forall k :: 0 <= k < |ws| ==> IsWord(ws[k])
    ensures Texts(line, TokensFrom(line, save)) == ws
    decreases |ws|
  {
    if ws == [] {
      assert |line[save..]| == 0;
      TokensFromStep(line, save);
    } else {
      var next := JoinStep(line, save, ws);
      TokensFromJoin(line, next, ws[1..]);
      TextsCons(line, TokensFrom(line, save), Token(save, |ws[0]|), TokensFrom(line, next), ws);
    }
  }

  /** Splitting a line of words separated by single spaces gives back those words, in
      order and each as typed. */
  lemma WordsOfJoin(ws: seq<string>)
    requires forall k :: 0 <= k < |ws| ==> IsWord(ws[k])
    ensures Words(JoinWords(ws)) == ws
  {
    TokensFromJoin(JoinWords(ws), 0, ws);
  }
}
