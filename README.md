# A verified model of the shell's sequential core

`shell.c` is a small interactive shell: it reads a line, classifies its
tokens, dispatches built-ins through a fixed table, spawns external commands
and pipelines, and records spawned processes in a linked process table. This
project models, in Dafny, the deterministic logic inside it and proves what that
logic promises:

- **Classifier** (`classifier.dfy`): the pipe, background and `fg` tests over
  the token sequence; `gen_args`, which fills a heap array with the argument
  vector and a NULL terminator and hands at most two trailing
  `(direction, path)` pairs to `redirect`; and `redirect`'s dispatch on the
  first character of the direction. Tokens are non-empty strings, and a token
  read past the end is `None`, as `tokens_get_token` returns NULL there.
  Each redirection is a recorded rebinding (stream, open mode, path), not an
  `open`/`dup2`.
- **Builtins** (`builtins.dfy`): the seven-entry `cmd_table` and the
  case-sensitive first-match `lookup`.
- **PathResolution** (`path.dfy`): `get_path` and `file_exists`. The file
  system appears only through existence. A set of paths stands for
  `access(path, F_OK) == 0`. `PATH` is split on `:` by a pure function.
- **Pipeline** (`pipeline.dfy`): the descriptor layout of `execute_pipe`,
  i.e. which entry of the `fd` array each stage's stdin and stdout come from.
  It also covers how a stage's own redirections, applied later inside
  `gen_args`, override that wiring.
- **Processes** (`processes.dfy`): `struct process` as a class, and the
  list rooted at the sentinel `head` as a class with a ghost sequence of its
  nodes. `add_process` and `get_process` keep their pointer-walking loops.
  `put_bg`/`put_fg` update the background flag.

A few points where the code behaves differently from what a shell is usually expected to do. The model follows the code in each:

- A pipeline of `n` stages needs only `n - 1` pipes, but `execute_pipe`
  allocates one pipe per stage (`2n` descriptors). The last pipe is never
  wired to a stage (`Pipeline.LastPipeUnused`).
- The background and pipe tests look only at a token's first character. A
  token such as `&x` or `|x` counts as the marker.
- `gen_args` drops every token after the first redirection operator, not just
  the operators and their operands. Its own comment at shell.c:290 flags the
  `break` as assuming the command ends after a redirection. Only the first redirection pair is always
  recorded. The second is recorded when the two tokens after the first path
  exist, whatever they are.
- A direction that starts with `>`, e.g. `>>`, truncates. It never appends.

## Model

| member | source | states |
|---|---|---|
| `Classifier.GetToken` | shell.c:285-288 | `tokens_get_token`: NULL exactly when the index is past the end, else the token at that index |
| `Classifier.ScanFirstCharacters` | shell.c:240-245 | the search loop shared with shell.c:268-273: true iff some token begins with the given character; false on an empty line |
| `Classifier.CheckPipes` | shell.c:235-246 | true iff some token begins with `\|`; false on an empty line |
| `Classifier.CheckBackground` | shell.c:263-274 | true iff some token begins with `&`; false on an empty line |
| `Classifier.CheckFg` | shell.c:249-260 | true iff some token is exactly `fg`; false on an empty line |
| `Classifier.FirstOperatorIsFirst` | shell.c:284-291 | the index where `gen_args` stops is the first token beginning with `>` or `<` (or the token count): no earlier token is an operator |
| `Classifier.ArgvShape` | shell.c:284-295 | argv is a prefix of the tokens, at most as long, free of operators, followed in the tokens by an operator when shorter, and all tokens when no operator occurs |
| `Classifier.RedirectionsShape` | shell.c:285-290 | at most two pairs; none iff no operator; the first is `(t[i], t[i+1])` at the first operator `i` (path NULL past the end); a second `(t[i+2], t[i+3])` iff `i + 3 < n` |
| `Classifier.ArgvEmptyAtLeadingOperator` | shell.c:284-295 | when the first token is an operator, argv is empty (`arg[0]` is NULL) and a redirection is still recorded |
| `Classifier.GenArgs` | shell.c:277-297 | NULL iff the line is empty; else a newly allocated `n + 1` slot array holding argv then a NULL terminator, with exactly the redirection pairs described above |
| `Classifier.Redirect` | shell.c:203-215 | acts iff the direction begins with `>` or `<` and a path is present; `>` rebinds descriptor 1 create-truncate-write, `<` rebinds descriptor 0 read-only, on the given path |
| `Classifier.FirstRedirectionActs` | shell.c:285-286 | the first recorded pair always rebinds a stream unless the operator is the last token |
| `Builtins.CmdTableNamesDistinct` | shell.c:63-71 | the table has 7 entries with pairwise distinct names |
| `Builtins.Lookup` | shell.c:155-160 | result in `[-1, 7)`; -1 iff `cmd` is NULL or no entry matches; otherwise the smallest index whose name equals `cmd` exactly |
| `Builtins.LookupFindsEveryEntry` | shell.c:63-71 | looking up the name of entry `i` returns `i` |
| `PathResolution.Candidate` | shell.c:196-199 | the path built for a directory is the directory, then `/`, then the file name |
| `PathResolution.FileExists` | shell.c:195-201 | `file_exists`: true iff `dir + "/" + file` passes the existence test |
| `PathResolution.SplitPath` | shell.c:218-219 | every directory obtained from PATH is non-empty and contains no `:` |
| `PathResolution.SplitJoinPath` | shell.c:219 | splitting a `:`-joined list of such directories gives back the list |
| `PathResolution.SearchDirsFirstHit` | shell.c:223-231 | the directory scan fails iff no `dir/file` exists; on success it returns `dir/file` for the first directory in order where it exists |
| `PathResolution.ResolveOrder` | shell.c:217-233 | `file` itself when it exists; otherwise the first PATH directory hit, in order; otherwise NULL exactly when no candidate exists |
| `PathResolution.ResolvedPathExists` | shell.c:195-233 | a returned path always passes the existence test |
| `PathResolution.GetPath` | shell.c:217-233 | the loop returns exactly the resolution described by `ResolveOrder` |
| `Pipeline.StageStdout` | shell.c:317-319 | stage `k` of `n` writes `fd[2k+1]`, the write end of pipe `k`, below `2n`, iff it is not the last stage; otherwise it keeps its own stdout |
| `Pipeline.StageStdin` | shell.c:321-323 | stage `k` of `n` reads `fd[2(k-1)]`, the read end of pipe `k - 1`, below `2n`, iff it is not the first stage; otherwise it keeps its own stdin |
| `Pipeline.DescriptorsInRange` | shell.c:304-323 | every descriptor index a stage uses lies in `[0, 2n)`; stdin is a read end, stdout a write end |
| `Pipeline.AdjacentStagesShareAPipe` | shell.c:317-323 | for `k < n - 1`, stage `k` writes `fd[2k+1]` and stage `k+1` reads `fd[2k]`, the two ends of pipe `k` |
| `Pipeline.EndsKeepOwnStreams` | shell.c:317-323 | the first stage keeps its own stdin, the last keeps its own stdout, every other stream is a pipe end |
| `Pipeline.ConnectedExactlyToNext` | shell.c:308-323 | stage `a`'s stdout and stage `b`'s stdin share a pipe iff `b == a + 1` |
| `Pipeline.LastPipeUnused` | shell.c:308-323 | no stage touches pipe `n - 1` of the `n` allocated |
| `Pipeline.LastRedirectionWins` | shell.c:284-290 | after the `redirect` calls, stdout is the last `>` file (stdin the last `<` file), or keeps its previous binding |
| `Pipeline.RedirectionOverridesPipe` | shell.c:317-330 | a stage's own redirections take precedence over its pipe wiring, stream by stream |
| `Processes.FirstIndex` | shell.c:74-80 | the first position of a pid in a pid sequence, or its length when absent |
| `Processes.FirstIndexAppend` | shell.c:353-365 | appending an entry never changes what a pid already present finds; an absent pid finds the new entry iff it is the new entry's pid |
| `Processes.Process.constructor` | shell.c:186-191 | an unlinked node (`next` NULL) with the given pid and background flag, not completed, as `init_shell` builds the sentinel |
| `Processes.Process.PutBg` | shell.c:376-378 | `background` becomes true; no other field changes |
| `Processes.Process.PutFg` | shell.c:94-95 | `background` becomes false; no other field changes |
| `Processes.ProcessTable.constructor` | shell.c:185-191 | the list is the sentinel alone, holding the shell's pid, not background, not completed, `next` NULL |
| `Processes.ProcessTable.GetProcess` | shell.c:74-80 | the first node in list order whose pid matches, or null when none does |
| `Processes.ProcessTable.AddProcess` | shell.c:353-365 | the list becomes the old list followed by `p`; the sentinel stays first; existing nodes keep their order, pids and flags; only the old last node's `next` is written |

## Left out

- The OS effects of `fork`, `execv`, `wait`, `pipe`, `dup2`, `close` and `open` in `execute_pipe`, `execute_bg` and `main`. They are process and descriptor effects, and pipeline stages run concurrently. Only the descriptor index layout and the recorded redirections are modelled.
- Opening a redirection target can fail, e.g. a missing input file or a permission error. That is I/O and is not modelled. A redirection whose path is NULL, because the operator is the last token, is modelled as leaving the stream unchanged: `open(NULL)` fails and duplicating the failed descriptor changes nothing.
- Signal dispositions, `tcsetpgrp`, `termios`, `wait_for_job` and the terminal handling of `init_shell`. These are job-control syscalls. `Process` therefore has no saved terminal-mode field.
- `Processes.Process.PutFg`: only the flag update of `put_fg` is modelled. Handing the terminal over, waiting for the job and taking the terminal back are left out for the reason above.
- The built-in handlers `cmd_help`, `cmd_exit`, `cmd_pwd`, `cmd_cd`, `cmd_wait` and `cmd_bg`. Each wraps one syscall or `printf`, or does nothing.
- The hardcoded command substitution in `cmd_fg` and in `main`. It is a leftover diagnostic, not a behaviour.
- The `main` read loop, prompt printing and `print_processes`. These are I/O.
- The tokenizer (`tokenize`, `tokenize2`). `tokenizer.h` is not part of this model. A line's tokens are a given sequence of non-empty strings.
- PathResolution.SplitPath: how `tokenize2` treats an empty field of PATH is not known, because its source is not part of this model. The split assumes empty fields are dropped, so `a::b` gives `a` and `b`. An empty PATH entry, which POSIX reads as the current directory, is therefore never searched in the model.
- `getenv("PATH")` returning NULL. The model takes PATH as a string.
- PathResolution.GetPath: takes a non-NULL file name. A command whose first token is an operator, such as `> out`, gets a non-NULL argument array whose `arg[0]` is NULL (`Classifier.ArgvEmptyAtLeadingOperator`). `main`, `execute_pipe` and `execute_bg` pass that NULL to `get_path` (shell.c:441-442, 330-331, 345-346). There `access(NULL)` fails and `file_exists` calls `strcat` with NULL (shell.c:199). That is undefined behaviour in C, and the model does not capture it.
- The fixed `malloc` sizes (`SIZE` = 200 bytes, 2000 bytes) and the overflows they allow for long paths. These are C memory details.
- How `main` builds a process node. It never sets the node's `next` field, and its `pid` is set only in the child's copy of memory. `Processes.ProcessTable.AddProcess` therefore requires a node that is unlinked (`next` is null) and not yet in the table, which are the conditions under which `add_process` keeps the list well formed.
- The case where `init_shell` runs non-interactively and leaves `head` NULL. The model's table always has its sentinel.
- A stage whose own token list is empty, where `gen_args` returns NULL and `args[0]` is dereferenced. This is undefined behaviour in C.
