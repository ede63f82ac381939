/** The line reader of the shell (read_line in main.c).

    The input stream is a sequence of the values getchar would deliver: a byte 0..255,
    or EOF. Reading past the end of the sequence yields EOF and consumes nothing, so an
    exhausted stream keeps answering EOF, as a terminal does. */
module LineReader {
  import opened Memory

  /** The value getchar returns at end of input. */
  const EOF: int := -1
  /** The character code of '\n'. */
  const NEWLINE: int := 10
  /** The initial capacity of the line buffer and the amount it grows by. */
  const RL_BUFFERSIZE: nat := 1024

  /** A value that ends the line being read. */
  predicate IsLineEnd(c: int) {
    c == EOF || c == NEWLINE
  }

  /** The character stored for the int getchar returned (the assignment to a char keeps
      the low eight bits). */
  function ToChar(c: int): (ch: char)
    ensures 0 <= c < 256 ==> ch as int == c
  {
    (c % 256) as char
  }

  /** The number of values before the first line end; the whole stream when it has none. */
  function LineLength(input: seq<int>): (n: nat)
    ensures n <= |input|
    ensures forall k :: 0 <= k < n ==> !IsLineEnd(input[k])
    ensures n < |input| ==> IsLineEnd(input[n])
  {
    if input == [] || IsLineEnd(input[0]) then 0 else 1 + LineLength(input[1..])
  }

  /** The text of the line at the head of the stream, without its terminator. */
  function Line(input: seq<int>): (line: string)
    ensures |line| == LineLength(input)
  {
    seq(LineLength(input), k requires 0 <= k < LineLength(input) => ToChar(input[k]))
  }

  /** What is left of the stream once the line and its terminator have been taken. */
  function Rest(input: seq<int>): (rest: seq<int>)
    ensures |rest| <= |input| && rest == input[|input| - |rest|..]
    ensures input != [] ==> |rest| < |input|
    ensures rest == [] || LineLength(input) < |input|
  {
    if LineLength(input) < |input| then input[LineLength(input) + 1..] else []
  }

  /** A stream of values getchar can return: each is a byte or EOF. */
  predicate IsCharStream(stream: seq<int>) {
    forall k :: 0 <= k < |stream| ==> stream[k] == EOF || 0 <= stream[k] < 256
  }

  /** The stand-in for getchar: the next value of the stream, and the stream after it.
      On a stream of getchar values it answers a byte or EOF and leaves a stream of
      getchar values; it consumes exactly one value, except that an exhausted stream
      answers EOF and stays exhausted. */
  function Getchar(stream: seq<int>): (r: (int, seq<int>))
    ensures IsCharStream(stream) ==> (r.0 == EOF || 0 <= r.0 < 256) && IsCharStream(r.1)
    ensures |stream| - 1 <= |r.1| <= |stream| && r.1 == stream[|stream| - |r.1|..]
    ensures r.1 == stream <==> stream == []
    ensures stream == [] ==> r.0 == EOF
    ensures stream != [] ==> r.0 == stream[0]
  {
    if stream == [] then (EOF, []) else (stream[0], stream[1..])
  }

  /** One more character of the line keeps its prefix read so far. */
  lemma LinePrefixStep(input: seq<int>, n: nat)
    requires n < LineLength(input)
    ensures Line(input)[..n + 1] == Line(input)[..n] + [ToChar(input[n])]
  {
  }

  /** The store step of read_line: writes one character at the write index, then grows
      the buffer by RL_BUFFERSIZE when the advanced index reaches its capacity. */
  method StoreChar(buf: array<char>, position: nat, c: char) returns (stored: array<char>)
    requires position < buf.Length
    requires buf.Length % RL_BUFFERSIZE == 0 && buf.Length - RL_BUFFERSIZE <= position
    modifies buf
    ensures stored == buf || fresh(stored)
    ensures position + 1 < stored.Length
    ensures stored.Length % RL_BUFFERSIZE == 0 && stored.Length - RL_BUFFERSIZE <= position + 1
    ensures stored.Length == if position + 1 >= buf.Length then buf.Length + RL_BUFFERSIZE else buf.Length
    ensures stored[..position + 1] == old(buf[..position]) + [c]
  {
    buf[position] := c;
    stored := buf;
    if position + 1 >= buf.Length {
      stored := Realloc(buf, buf.Length + RL_BUFFERSIZE, '\0');
    }
  }

  /** read_line: reads up to the first '\n' or EOF into a buffer that starts at
      RL_BUFFERSIZE slots and grows by RL_BUFFERSIZE whenever the write index reaches the
      capacity, then writes the terminating '\0'. Returns the buffer and what is left of
      the stream. */
  method ReadLine(input: seq<int>) returns (buf: array<char>, rest: seq<int>)
    ensures fresh(buf)
    ensures rest == Rest(input)
    ensures LineLength(input) < buf.Length
    ensures buf[..LineLength(input)] == Line(input)
    ensures buf[LineLength(input)] == '\0'
    ensures buf.Length % RL_BUFFERSIZE == 0
    ensures buf.Length - RL_BUFFERSIZE <= LineLength(input)
  {
    var position := 0;
    buf := new char[RL_BUFFERSIZE];
    rest := input;
    while true
      invariant fresh(buf)
      invariant position <= LineLength(input)
      invariant rest == input[position..]
      invariant position < buf.Length
      invariant buf.Length % RL_BUFFERSIZE == 0 && buf.Length - RL_BUFFERSIZE <= position
      invariant buf[..position] == Line(input)[..position]
      decreases |rest|
    {
      var next := Getchar(rest);
      var c := next.0;
      rest := next.1;
      if IsLineEnd(c) {
        ghost var line := buf[..position];
        buf[position] := '\0';
        assert buf[..position] == line;
        return;
      }
      LinePrefixStep(input, position);
      buf := StoreChar(buf, position, ToChar(c));
      position := position + 1;
    }
  }

  /** The C string held by a buffer: its characters before the first '\0'. */
  function CString(s: seq<char>): (r: string)
    ensures |r| <= |s| && r == s[..|r|]
    ensures '\0' !in r
    ensures |r| < |s| ==> s[|r|] == '\0'
  {
    if s == [] || s[0] == '\0' then [] else [s[0]] + CString(s[1..])
  }

  /** A NUL-terminated buffer holds, as a C string, the C string of what precedes its
      terminator. */
  lemma {:induction false} CStringOfTerminated(s: seq<char>, t: seq<char>)
    ensures CString(s + ['\0'] + t) == CString(s)
  {
    if s == [] {
      assert (s + ['\0'] + t)[0] == '\0';
    } else if s[0] == '\0' {
      assert (s + ['\0'] + t)[0] == '\0';
    } else {
      assert (s + ['\0'] + t)[1..] == s[1..] + ['\0'] + t;
      CStringOfTerminated(s[1..], t);
    }
  }

  /** The C string of the buffer read_line returns is the C string of the line: the line
      itself up to its first NUL byte. */
  lemma ReadLineCString(input: seq<int>, buf: seq<char>)
    requires LineLength(input) < |buf| && buf[..LineLength(input)] == Line(input)
    requires buf[LineLength(input)] == '\0'
    ensures CString(buf) == CString(Line(input))
  {
  }

  /** A stream of values getchar can return (EOF or a byte) without NUL bytes. */
  predicate NoNul(input: seq<int>) {
    forall k :: 0 <= k < |input| ==> input[k] == EOF || 0 < input[k] < 256
  }

  /** On such a stream the C string of the line is the whole line. */
  lemma LineWithoutNul(input: seq<int>)
    requires NoNul(input)
    ensures CString(Line(input)) == Line(input)
  {
  }

  /** The line read is exactly the characters that precede the terminator, with none of
      the terminator's kind among them. */
  lemma {:induction false} LineRoundTrip(text: seq<int>, terminator: int, rest: seq<int>)
    requires forall k :: 0 <= k < |text| ==> 0 <= text[k] < 256 && text[k] != NEWLINE
    requires IsLineEnd(terminator)
    ensures LineLength(text + [terminator] + rest) == |text|
    ensures Line(text + [terminator] + rest) == seq(|text|, k requires 0 <= k < |text| => text[k] as char)
    ensures Rest(text + [terminator] + rest) == rest
  {
    var input := text + [terminator] + rest;
    if text == [] {
      assert input[0] == terminator;
    } else {
      assert input[1..] == text[1..] + [terminator] + rest;
      LineRoundTrip(text[1..], terminator, rest);
    }
    assert LineLength(input) == |text|;
    assert input[|text| + 1..] == rest;
  }
}
