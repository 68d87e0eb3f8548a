/** The built-in dispatcher: the fixed `cmd_table` and its case-sensitive first-match `lookup`. */
module Builtins {
  import opened Wrappers

  /** The handler a table entry points to. */
  datatype Handler = Help | Exit | Pwd | Cd | Wait | Fg | Bg

  /** One entry of `cmd_table`: handler, command name, help text. */
  datatype FunDesc = FunDesc(fun: Handler, cmd: string, doc: string)

  const CmdTable: seq<FunDesc> := [
    FunDesc(Help, "?", "show this help menu"),
    FunDesc(Exit, "exit", "exit the command shell"),
    FunDesc(Pwd, "pwd", "show current working dir"),
    FunDesc(Cd, "cd", "change dir"),
    FunDesc(Wait, "wait", "wait until all background jobs have terminated"),
    FunDesc(Fg, "fg", "move the process with id pid to foreground"),
    FunDesc(Bg, "bg", "move the process with id pid to background")
  ]

  /** The command names of the table are pairwise distinct, so a first match is the only match. */
  lemma CmdTableNamesDistinct()
    ensures |CmdTable| == 7
    ensures forall i, j :: 0 <= i < j < |CmdTable| ==> CmdTable[i].cmd != CmdTable[j].cmd
  {
  }

  /**
   * `lookup`: the smallest index whose name equals `cmd` exactly, or -1 when
   * there is none or `cmd` is NULL.
   */
  method Lookup(cmd: Option<string>) returns (r: int)
    ensures -1 <= r < |CmdTable|
    ensures r == -1 <==> cmd.None? || forall i :: 0 <= i < |CmdTable| ==> CmdTable[i].cmd != cmd.value
    ensures r >= 0 ==> cmd.Some? && CmdTable[r].cmd == cmd.value
    ensures r >= 0 ==> forall j :: 0 <= j < r ==> CmdTable[j].cmd != cmd.value
  {
    var i := 0;
    while i < |CmdTable|
      invariant 0 <= i <= |CmdTable|
      invariant cmd.Some? ==> forall j :: 0 <= j < i ==> CmdTable[j].cmd != cmd.value
    {
      if cmd.Some? && CmdTable[i].cmd == cmd.value {
        return i;
      }
      i := i + 1;
    }
    return -1;
  }

  /** Every name in the table is found at its own entry, whatever else the table holds. */
  method LookupFindsEveryEntry(i: nat) returns (r: int)
    requires i < |CmdTable|
    ensures r == i
  {
    CmdTableNamesDistinct();
    r := Lookup(Some(CmdTable[i].cmd));
  }
}
