# SimpleLinuxShell, modelled in Dafny

A model of the core of SimpleLinuxShell (`main.c`), a minimal interactive shell:

- `read_line` reads one line from standard input into a growable buffer;
- `split_line` cuts it into tokens with `strtok` on the separators `" \t\r\n\a"`;
- `execute_command` runs the command vector. It runs one of the built-ins `cd`, `help`
  and `exit`, or else launches a program and waits for it;
- `prompt` repeats those steps until a command returns 0.

Modules, one per part of the program:

- `LineReader` (`line_reader.dfy`) models `read_line`. The input is a sequence of the
  values `getchar` returns: a byte, or `EOF` (-1). Reading past its end yields `EOF`.
  `ReadLine` is the loop of the source over an `array<char>` that grows by 1024 slots
  (`StoreChar` is its store-and-grow step).
  It is proved against the specification functions `Line` and `Rest`.
- `Tokenizer` (`tokenizer.dfy`) models `strtok` and `split_line`. A token is an
  (offset, length) range of the line. `StrTok` is one `strtok` call, and `TokensFrom`
  repeats it. `SplitLine` is the source's loop over a token array that grows by 64 slots
  (`StoreToken` is its store-and-grow step) and ends with a `None` sentinel. The
  specification is `IsMaximalRun`: a token is a non-empty run of non-separators that
  cannot be extended. The lemmas prove that the tokens are exactly those runs, in order.
- `Dispatcher` (`dispatcher.dfy`) models the name table and the handler table, the
  lookup of `execute_command`, the constant handlers, and `launch` with its `waitpid`
  loop over a given sequence of child reports.
- `ShellState` (`shell.dfy`) models the shell process as `class Shell`. The field `cwd`
  is the working directory. The ghost field `invoked` logs the handlers run so far.
  `CdCommand`, `ExecuteCommand` and `Prompt` are the source's functions. What the
  operating system answers in each round (chdir, fork) is an `Environment` parameter.
- `Memory` (`memory.dfy`) holds `Realloc`, the growing copy that both buffers use.
  `Options` (`options.dfy`) holds the `Option` datatype.

## Model

| member | source | states |
|---|---|---|
| LineReader.ToChar | main.c:180 | a value 0..255 is stored as the character with that code |
| LineReader.LineLength | main.c:171-183 | the count of values before the first `'\n'` or `EOF`: none of them ends the line, and the value at the count does (or the stream is exhausted) |
| LineReader.Line | main.c:176-181 | the line has exactly `LineLength` characters |
| LineReader.Rest | main.c:173-178 | what is left of the stream is a suffix of it, strictly shorter when the stream was non-empty; it is empty unless a terminator was found |
| LineReader.StoreChar | main.c:180-192 | the character is stored at the write index; earlier characters are kept; the buffer grows by exactly 1024 slots iff the advanced index reaches the capacity, so the index stays below capacity |
| LineReader.ReadLine | main.c:160-194 | the buffer is newly allocated and holds exactly the line's characters, untruncated at any length, followed by `'\0'`; the rest of the stream is `Rest`; the capacity is a multiple of 1024 and at most 1024 more than the line length, so every write, the terminator included, is in bounds |
| LineReader.CString | main.c:177 | the C string of a buffer is its prefix before the first `'\0'`, and holds no `'\0'` |
| LineReader.CStringOfTerminated | main.c:177-178 | a terminated buffer reads back as the C string of what precedes the terminator |
| LineReader.ReadLineCString | main.c:177-178 | the string `read_line` returns is the C string of the line |
| LineReader.LineWithoutNul | main.c:176-181 | on a stream without NUL bytes that string is the whole line |
| LineReader.LineRoundTrip | main.c:171-183 | reading `text + terminator + rest` gives back `text` as the line and `rest` as what follows, for any `text` without `'\n'` |
| Tokenizer.SkipSeparators | main.c:213 | the first position at or after `i` that is not a separator; only separators lie in between |
| Tokenizer.RunEnd | main.c:213-229 | the end of the run of non-separators starting at `i`; it stops at a separator or the end of the line |
| Tokenizer.StrTok | main.c:213-229 | one `strtok` call: no token exactly when only separators lie from the saved position to the end, and then the scan ends at the end of the line; a token lies in the line at or after the saved position, and the next saved position is past the saved one and follows a separator or is the end of the line |
| Tokenizer.StrTokFindsNextRun | main.c:213-229 | `strtok` finds no token iff only separators remain; otherwise it returns the next maximal run of non-separators and skips only separators to reach it |
| Tokenizer.TokensFrom | main.c:213-230 | the tokens of repeated `strtok` calls all lie within the line |
| Tokenizer.TokensFromSound | main.c:213-230 | every token found from a position is a maximal run at or after it, and the tokens are strictly left to right |
| Tokenizer.TokensFromComplete | main.c:213-230 | every maximal run at or after a position is found |
| Tokenizer.TokensAreMaximalRuns | main.c:197 | the tokens of a line are exactly its maximal runs of characters outside `" \t\r\n\a"`: each is non-empty and holds no separator, each such run is a token, and order is left to right |
| Tokenizer.NoTokensIffBlank | main.c:213-214 | a line yields no token iff it is empty or made only of separators |
| Tokenizer.StoreToken | main.c:215-227 | the token is stored at `position`; earlier slots are kept; the array grows by exactly 64 slots iff `position + 1` reaches the capacity, so the index stays below capacity |
| Tokenizer.SplitLine | main.c:203-234 | for a line without `'\0'` (the C string strtok scans), the array is newly allocated and its first slots hold exactly the line's tokens, in order; the `None` sentinel follows them; the capacity is a multiple of 64 and at most 64 more than the token count; with `NoTokensIffBlank`, a blank line puts the sentinel at index 0 |
| Tokenizer.ArgVector | main.c:232 | the argument vector read up to the first `None` slot holds the texts of the slots before it |
| Tokenizer.ArgVectorOfSplit | main.c:232-233 | the vector read from the array `SplitLine` returns is the words of the line |
| Tokenizer.TokensFromJoin | main.c:213-230 | from any position, the suffix made by joining words with single spaces splits back into those words |
| Tokenizer.WordsOfJoin | main.c:213-230 | splitting words joined by single spaces gives back the words |
| Dispatcher.BuiltinCommandsCount | main.c:49-51 | the number of built-ins, which is the length of both tables |
| Dispatcher.FindBuiltin | main.c:147-151 | the first table entry at or after `i` equal to the name, with no equal entry before it, or none at all |
| Dispatcher.Dispatch | main.c:139-153 | blank iff the vector is empty; a built-in only for a name in the table; a launch only for a name outside it, with the whole vector |
| Dispatcher.DispatchByName | main.c:147-152 | `cd`, `help` and `exit` each run iff args[0] is that exact name; the program is launched iff args[0] is none of them |
| Dispatcher.HelpCommand | main.c:78-95 | returns 1 |
| Dispatcher.ExitCommand | main.c:102-104 | returns 0 |
| Dispatcher.ExpectedStatus | main.c:137-153 | 0 iff args[0] is `"exit"`, and 1 otherwise (blank line, `cd`, `help`, launched program) |
| Dispatcher.WaitForChild | main.c:127-129 | the loop calls `waitpid` until the first report that the child exited or was killed, and no earlier report says so |
| Dispatcher.Launch | main.c:111-132 | returns 1, whether fork fails or the child is waited for |
| ShellState.Invocation | main.c:142-152 | no handler runs for a blank vector; otherwise exactly the one `Dispatch` picks |
| ShellState.CdEffect | main.c:62-71 | the working directory changes only for `cd` with a second token whose chdir succeeds, and then becomes that token |
| ShellState.SessionCommands | main.c:245-249 | the first round runs the command vector of the stream's first line |
| ShellState.RoundsRun | main.c:245-254 | the loop runs up to and including the first `exit` command, or all rounds when no command is `exit` |
| ShellState.BlankLineIsNoOp | main.c:142-145 | a line of separators only runs no handler, returns 1 and does not stop the loop |
| ShellState.ReadCommand | main.c:248-249 | `read_line` followed by `split_line` gives the command vector of the stream's first line and leaves `Rest` of the stream |
| ShellState.Shell.CdCommand | main.c:62-71 | returns 1; without a second token the directory is unchanged; with one it becomes that token exactly when chdir succeeds |
| ShellState.Shell.ExecuteCommand | main.c:139-153 | returns `ExpectedStatus`; runs exactly the handler of `Invocation`; the directory changes as `CdEffect` says |
| ShellState.Shell.RunRound | main.c:248-250 | one round: the status is 0 iff the line's command is `exit`; the handler log and the directory are updated for that command |
| ShellState.Shell.Prompt | main.c:239-255 | runs `RoundsRun` rounds: the handlers logged are those of the commands of these rounds, in order, and the directory is the result of these rounds' `cd` commands |

## Left out

- LineReader.Getchar: stands in for libc's `getchar`, which is not part of this model;
  it takes the next value off a given finite stream and answers `EOF` once the stream
  is exhausted.
- `fork`, `execvp` and the child's side of `launch` are not modelled. The parent sees the
  fork outcome as a parameter: a failure, or a child with a given sequence of `waitpid`
  reports.
- Dispatcher.WaitForChild: requires that some report says the child finished. The
  source's loop does not end otherwise. The error return of `waitpid` is not modelled.
- ShellState.CdEffect: chdir's success is a parameter. On success the directory becomes
  `args[1]` as written. Relative paths are not resolved.
- All output is left out: `printf`, `fprintf`, `perror`, the help text, and the prompt
  printed with `getcwd`.
- Allocation failure and the `exit(EXIT_FAILURE)` paths are left out. Allocation is taken
  to succeed.
- `free` is left out, because Dafny's memory is managed.
- `strtok` writes NULs into the line. Tokens are ranges of an unchanged line instead. The
  texts they denote are the same.
- The C `int` counters `position` and `buffer_size` are unbounded integers here. Lines or
  token counts near 2^31 are out of scope.
- ShellState.Shell.Prompt: runs on a finite stream and also stops once the stream is
  exhausted. The source keeps prompting forever at end of input, since `EOF` reads as an
  empty line that returns 1. The rounds that are modelled are exactly the source's
  rounds up to that point.
- ShellState.Shell.Prompt: takes one environment per line of the stream, given in
  advance.
- `main` only calls `prompt`, and is not modelled separately.
