/** The shell process: its working directory, execute_command with the cd handler, and
    the prompt loop (cd_command, execute_command and prompt in main.c). */
module ShellState {
  import opened LineReader
  import opened Tokenizer
  import opened Dispatcher

  /** What the operating system answers during one round of the prompt loop: whether
      chdir succeeds, and how fork turns out. */
  datatype Environment = Environment(chdirSucceeds: bool, fork: ForkOutcome)

  predicate WellFormedEnvironment(env: Environment) {
    WellFormedFork(env.fork)
  }

  /** The handler execute_command runs for an argument vector, as a log entry: none for a
      blank line. */
  function Invocation(args: seq<string>): (log: seq<Action>)
    ensures log == [] <==> args == []
    ensures log != [] ==> log == [Dispatch(args)]
  {
    if Dispatch(args).Blank? then [] else [Dispatch(args)]
  }

  /** The working directory after execute_command: only cd with a second token whose
      chdir succeeds changes it, to that token. */
  function CdEffect(cwd: string, args: seq<string>, env: Environment): (dir: string)
    ensures dir != cwd ==> |args| >= 2 && args[0] == "cd" && env.chdirSucceeds && dir == args[1]
    ensures |args| >= 2 && args[0] == "cd" && env.chdirSucceeds ==> dir == args[1]
  {
    if Dispatch(args) == RunBuiltin(Cd) && |args| >= 2 && env.chdirSucceeds then args[1] else cwd
  }

  /** A command vector that ends the prompt loop: its first word is "exit". */
  predicate IsExitCommand(args: seq<string>) {
    args != [] && args[0] == "exit"
  }

  /** The command vector of the first line of a stream: the words of the line up to its
      first NUL byte, where strtok stops. */
  function CommandOf(input: seq<int>): seq<string> {
    Words(CString(Line(input)))
  }

  /** The command vectors the prompt loop reads from the stream, one per round, until
      the stream is exhausted; an empty stream still gives one (empty) vector. */
  function SessionCommands(input: seq<int>): (cmds: seq<seq<string>>)
    ensures cmds != [] && cmds[0] == CommandOf(input)
    decreases |input|
  {
    var first := CommandOf(input);
    if Rest(input) == [] then [first] else [first] + SessionCommands(Rest(input))
  }

  /** The number of rounds the prompt loop runs on a sequence of command vectors: up to
      and including the first exit command, or all of them. */
  function RoundsRun(cmds: seq<seq<string>>): (n: nat)
    ensures n <= |cmds| && (cmds != [] ==> 0 < n)
    ensures forall j :: 0 <= j < n - 1 ==> !IsExitCommand(cmds[j])
    ensures 0 < n < |cmds| ==> IsExitCommand(cmds[n - 1])
  {
    if cmds == [] then 0 else if IsExitCommand(cmds[0]) then 1 else 1 + RoundsRun(cmds[1..])
  }

  /** The handlers run on a sequence of command vectors, in order. */
  function Invocations(cmds: seq<seq<string>>): seq<Action> {
    if cmds == [] then []
    else Invocations(cmds[..|cmds| - 1]) + Invocation(cmds[|cmds| - 1])
  }

  /** The working directory after a sequence of command vectors, round k answered by
      envs[k]. */
  function CwdAfter(cwd: string, cmds: seq<seq<string>>, envs: seq<Environment>): string
    requires |cmds| <= |envs|
  {
    if cmds == [] then cwd
    else CdEffect(CwdAfter(cwd, cmds[..|cmds| - 1], envs), cmds[|cmds| - 1], envs[|cmds| - 1])
  }

  /** A blank line, or one of separators only, runs nothing and keeps the loop going. */
  lemma BlankLineIsNoOp(line: string)
    requires forall k :: 0 <= k < |line| ==> IsSeparator(line[k])
    ensures Words(line) == [] && Invocation(Words(line)) == []
    ensures ExpectedStatus(Words(line)) == CONTINUE && !IsExitCommand(Words(line))
  {
  }

  /** Round i of the prompt loop reads the head of `rest`: the commands from round i on
      are the session commands of `rest`. */
  predicate ReadsFrom(cmds: seq<seq<string>>, i: nat, rest: seq<int>) {
    i < |cmds| && cmds[i..] == SessionCommands(rest)
  }

  lemma NextSessionCommand(cmds: seq<seq<string>>, i: nat, rest: seq<int>)
    requires ReadsFrom(cmds, i, rest)
    ensures i < |cmds| && cmds[i] == CommandOf(rest)
    ensures Rest(rest) == [] ==> i + 1 == |cmds|
    ensures Rest(rest) != [] ==> ReadsFrom(cmds, i + 1, Rest(rest))
  {
    assert cmds[i..][0] == cmds[i];
    assert cmds[i..][1..] == cmds[i + 1..];
  }

  lemma InvocationsStep(cmds: seq<seq<string>>, i: nat)
    requires i < |cmds|
    ensures Invocations(cmds[..i + 1]) == Invocations(cmds[..i]) + Invocation(cmds[i])
  {
    assert cmds[..i + 1][..i] == cmds[..i];
  }

  lemma AppendAssociative<T>(a: seq<T>, b: seq<T>, c: seq<T>)
    ensures (a + b) + c == a + (b + c)
  {
  }

  lemma CwdAfterStep(cwd: string, cmds: seq<seq<string>>, i: nat, envs: seq<Environment>)
    requires i < |cmds| && i < |envs|
    ensures CwdAfter(cwd, cmds[..i + 1], envs) == CdEffect(CwdAfter(cwd, cmds[..i], envs), cmds[i], envs[i])
  {
    assert cmds[..i + 1][..i] == cmds[..i];
  }

  /** The loop stops after round i when that round's command is exit, or when it was the
      last one, provided no earlier command was exit. */
  lemma RoundsRunStop(cmds: seq<seq<string>>, i: nat)
    requires i < |cmds| && forall j :: 0 <= j < i ==> !IsExitCommand(cmds[j])
    requires IsExitCommand(cmds[i]) || i == |cmds| - 1
    ensures RoundsRun(cmds) == i + 1
  {
  }

  /** One round's input side: read_line, then split_line on the string it returns (up
      to its terminating NUL), then the argument vector up to the NULL sentinel. This is
      the command vector of the stream's first line. */
  method ReadCommand(stream: seq<int>) returns (args: seq<string>, next: seq<int>)
    ensures args == CommandOf(stream)
    ensures next == Rest(stream)
  {
    var buf, rest := ReadLine(stream);
    ReadLineCString(stream, buf[..]);
    var line := CString(buf[..]);
    var tokens, count := SplitLine(line);
    ArgVectorOfSplit(line, tokens[..count + 1]);
    args := ArgVector(line, tokens[..count + 1]);
    next := rest;
  }

  /** The shell process. */
  class Shell {
    /** The working directory of the process. */
    var cwd: string
    /** The handlers run so far, in order. */
    ghost var invoked: seq<Action>

    constructor (dir: string)
      ensures cwd == dir && invoked == []
    {
      cwd := dir;
      invoked := [];
    }

    /** cd_command: without a second token, reports the missing argument and changes
        nothing; otherwise chdir to args[1], whose failure is reported. Always keeps the
        loop going. */
    method CdCommand(args: seq<string>, chdirSucceeds: bool) returns (status: int)
      requires args != []
      modifies this`cwd
      ensures status == CONTINUE
      ensures cwd == if |args| >= 2 && chdirSucceeds then args[1] else old(cwd)
    {
      if |args| < 2 {
      } else {
        if chdirSucceeds {
          cwd := args[1];
        }
      }
      status := CONTINUE;
    }

    /** execute_command: a blank vector keeps the loop going and runs nothing; otherwise
        the name table is scanned in order and the handler of the first entry equal to
        args[0] runs; with no such entry the program is launched. */
    method ExecuteCommand(args: seq<string>, env: Environment) returns (status: int)
      requires WellFormedEnvironment(env)
      modifies this
      ensures status == ExpectedStatus(args)
      ensures invoked == old(invoked) + Invocation(args)
      ensures cwd == CdEffect(old(cwd), args, env)
    {
      if args == [] {
        return CONTINUE;
      }
      var i := 0;
      while i < BuiltinCommandsCount()
        invariant 0 <= i <= |BuiltinNames|
        invariant forall j :: 0 <= j < i ==> BuiltinNames[j] != args[0]
        invariant cwd == old(cwd) && invoked == old(invoked)
      {
        if args[0] == BuiltinNames[i] {
          invoked := invoked + [RunBuiltin(BuiltinHandlers[i])];
          match BuiltinHandlers[i] {
            case Cd => status := CdCommand(args, env.chdirSucceeds);
            case Help => status := HelpCommand(args);
            case Exit => status := ExitCommand(args);
          }
          return;
        }
        i := i + 1;
      }
      invoked := invoked + [Launched(args)];
      status := Launch(args, env.fork);
    }

    /** One round of the prompt loop: reads and splits a line of the stream, then
        executes the command vector; the status says whether the loop goes on. */
    method RunRound(stream: seq<int>, env: Environment) returns (status: int, next: seq<int>)
      requires WellFormedEnvironment(env)
      modifies this
      ensures status == TERMINATE <==> IsExitCommand(CommandOf(stream))
      ensures next == Rest(stream)
      ensures invoked == old(invoked) + Invocation(CommandOf(stream))
      ensures cwd == CdEffect(old(cwd), CommandOf(stream), env)
    {
      var args;
      args, next := ReadCommand(stream);
      status := ExecuteCommand(args, env);
    }

    /** prompt: round after round, reads a line, splits it and executes it, until the
        command returns 0. The stream is finite here: the loop also stops once it is
        exhausted. Returns the number of rounds. */
    method Prompt(input: seq<int>, envs: seq<Environment>) returns (rounds: nat)
      requires |SessionCommands(input)| <= |envs|
      requires forall k :: 0 <= k < |envs| ==> WellFormedEnvironment(envs[k])
      modifies this
      ensures rounds == RoundsRun(SessionCommands(input))
      ensures invoked == old(invoked) + Invocations(SessionCommands(input)[..rounds])
      ensures cwd == CwdAfter(old(cwd), SessionCommands(input)[..rounds], envs)
    {
      ghost var cmds := SessionCommands(input);
      var rest := input;
      rounds := 0;
      while true
        invariant ReadsFrom(cmds, rounds, rest)
        invariant forall j :: 0 <= j < rounds ==> !IsExitCommand(cmds[j])
        invariant invoked == old(invoked) + Invocations(cmds[..rounds])
        invariant cwd == CwdAfter(old(cwd), cmds[..rounds], envs)
        decreases |rest|
      {
        NextSessionCommand(cmds, rounds, rest);
        InvocationsStep(cmds, rounds);
        CwdAfterStep(old(cwd), cmds, rounds, envs);
        var returnStatus, next := RunRound(rest, envs[rounds]);
        AppendAssociative(old(invoked), Invocations(cmds[..rounds]), Invocation(cmds[rounds]));
        if returnStatus == TERMINATE || next == [] {
          RoundsRunStop(cmds, rounds);
          return rounds + 1;
        }
        rounds := rounds + 1;
        rest := next;
      }
    }
  }
}
