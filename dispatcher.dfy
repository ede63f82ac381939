/** The built-in table, the dispatch decision and the launcher of the shell
    (command_bulitin, command_handler, bulitin_commands_count, help_command, exit_command,
    launch and the lookup of execute_command in main.c). */
module Dispatcher {
  import opened Options

  /** The continuation signals: 1 keeps the prompt loop going, 0 ends it. */
  const CONTINUE: int := 1
  const TERMINATE: int := 0

  /** The handlers of the built-in commands. */
  datatype Builtin = Cd | Help | Exit

  /** The name table and the handler table, entry by entry. */
  const BuiltinNames: seq<string> := ["cd", "help", "exit"]
  const BuiltinHandlers: seq<Builtin> := [Cd, Help, Exit]

  /** bulitin_commands_count: the number of entries of the name table, which the handler
      table matches entry for entry. */
  function BuiltinCommandsCount(): (n: nat)
    ensures n == |BuiltinNames| && n == |BuiltinHandlers|
  {
    |BuiltinNames|
  }

  /** The first entry of the name table at or after i that equals `name` exactly. */
  function FindBuiltin(name: string, i: nat): (r: Option<nat>)
    requires i <= |BuiltinNames|
    ensures r.Some? ==> i <= r.value < |BuiltinNames| && BuiltinNames[r.value] == name
    ensures r.Some? ==> forall j :: i <= j < r.value ==> BuiltinNames[j] != name
    ensures r.None? ==> forall j :: i <= j < |BuiltinNames| ==> BuiltinNames[j] != name
    decreases |BuiltinNames| - i
  {
    if i == |BuiltinNames| then None
    else if BuiltinNames[i] == name then Some(i)
    else FindBuiltin(name, i + 1)
  }

  /** What execute_command runs for an argument vector: nothing for a blank line, the
      handler of a built-in, or an external program. */
  datatype Action = Blank | RunBuiltin(builtin: Builtin) | Launched(args: seq<string>)

  /** The dispatch decision of execute_command: blank for an empty vector, else the
      handler at the first name-table entry equal to args[0], else a launch. */
  function Dispatch(args: seq<string>): (a: Action)
    ensures a.Blank? <==> args == []
    ensures a.Launched? ==> a.args == args && args[0] !in BuiltinNames
    ensures a.RunBuiltin? ==> args != [] && args[0] in BuiltinNames
  {
    if args == [] then Blank
    else match FindBuiltin(args[0], 0)
      case Some(i) => RunBuiltin(BuiltinHandlers[i])
      case None => Launched(args)
  }

  /** Each built-in is reached by its own name and by no other; every other command
      name is launched. */
  lemma DispatchByName(args: seq<string>)
    requires args != []
    ensures Dispatch(args) == RunBuiltin(Cd) <==> args[0] == "cd"
    ensures Dispatch(args) == RunBuiltin(Help) <==> args[0] == "help"
    ensures Dispatch(args) == RunBuiltin(Exit) <==> args[0] == "exit"
    ensures Dispatch(args) == Launched(args) <==> args[0] !in BuiltinNames
  {
  }

  /** help_command: prints the help text and keeps the loop going, whatever its
      arguments. */
  function HelpCommand(args: seq<string>): (status: int)
    ensures status == CONTINUE
  {
    CONTINUE
  }

  /** exit_command: ends the loop, whatever its arguments. */
  function ExitCommand(args: seq<string>): (status: int)
    ensures status == TERMINATE
  {
    TERMINATE
  }

  /** The status execute_command returns for an argument vector: each handler's constant
      (cd and launch always return 1), and 1 for a blank line. */
  function ExpectedStatus(args: seq<string>): (status: int)
    ensures status == TERMINATE <==> args != [] && args[0] == "exit"
    ensures status == CONTINUE || status == TERMINATE
  {
    match Dispatch(args)
    case Blank => CONTINUE
    case RunBuiltin(Cd) => CONTINUE
    case RunBuiltin(Help) => HelpCommand(args)
    case RunBuiltin(Exit) => ExitCommand(args)
    case Launched(_) => CONTINUE
  }

  /** What waitpid reports about the child in return_status. */
  datatype WaitStatus = Exited(code: int) | Signaled(signal: int) | Stopped(signal: int)

  /** WIFEXITED or WIFSIGNALED: the child has finished. */
  predicate IsTerminal(s: WaitStatus) {
    s.Exited? || s.Signaled?
  }

  /** The child eventually finishes: a report of the sequence is terminal. */
  predicate ChildFinishes(reports: seq<WaitStatus>) {
    exists i :: 0 <= i < |reports| && IsTerminal(reports[i])
  }

  /** The outcome of fork as the parent sees it: failure, or a child whose successive
      waitpid reports are given. */
  datatype ForkOutcome = ForkFailed | Forked(reports: seq<WaitStatus>)

  predicate WellFormedFork(f: ForkOutcome) {
    f.Forked? ==> ChildFinishes(f.reports)
  }

  /** The wait loop of launch: calls waitpid until a report says the child exited or was
      killed by a signal, stepping over reports that it stopped. Returns the number of
      waitpid calls. */
  method WaitForChild(reports: seq<WaitStatus>) returns (waits: nat)
    requires ChildFinishes(reports)
    ensures 0 < waits <= |reports| && IsTerminal(reports[waits - 1])
    ensures forall j :: 0 <= j < waits - 1 ==> !IsTerminal(reports[j])
  {
    waits := 0;
    while true
      invariant waits <= |reports|
      invariant forall j :: 0 <= j < waits ==> !IsTerminal(reports[j])
      invariant exists i :: waits <= i < |reports| && IsTerminal(reports[i])
      decreases |reports| - waits
    {
      var returnStatus := reports[waits];
      waits := waits + 1;
      if IsTerminal(returnStatus) {
        return;
      }
    }
  }

  /** launch: on a fork failure reports the error; otherwise waits until the child has
      finished. Always keeps the loop going. */
  method Launch(args: seq<string>, fork: ForkOutcome) returns (status: int)
    requires WellFormedFork(fork)
    ensures status == CONTINUE
  {
    if fork.Forked? {
      var _ := WaitForChild(fork.reports);
    }
    status := CONTINUE;
  }
}
