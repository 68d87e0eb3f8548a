/**
 * The descriptor layout of `execute_pipe`: which entry of the `fd` array
 * each stage's stdin and stdout are duplicated from, and how the stage's own
 * redirections (applied afterwards, inside `gen_args`) override that wiring.
 */
module Pipeline {
  import opened Wrappers
  import opened Classifier

  /** `pipe(fd + 2*i)` stores pipe `i`'s read end at `fd[2*i]` and its write end at `fd[2*i + 1]`. */
  datatype PipeEnd = ReadEnd | WriteEnd

  /** `execute_pipe` allocates one pipe per stage. */
  function PipeCount(n: nat): nat
  {
    n
  }

  /** The length of the `fd` array. */
  function DescriptorCount(n: nat): nat
  {
    2 * PipeCount(n)
  }

  function PipeOf(index: nat): nat
  {
    index / 2
  }

  function EndOf(index: nat): PipeEnd
  {
    if index % 2 == 0 then ReadEnd else WriteEnd
  }

  /** What a standard stream of a stage is bound to. */
  datatype Binding = Inherited | PipeFd(index: nat) | File(path: Token, mode: OpenMode)

  /** Stage `k` of `n` writes `fd[2k+1]` unless it is the last stage. */
  function StageStdout(n: nat, k: nat): (b: Binding)
    requires k < n
    ensures !b.File?
    ensures b.PipeFd? <==> k < n - 1
    ensures b.PipeFd? ==> b.index == 2 * k + 1 && b.index < DescriptorCount(n)
                          && PipeOf(b.index) == k && EndOf(b.index) == WriteEnd
  {
    if k != n - 1 then PipeFd(2 * k + 1) else Inherited
  }

  /** Stage `k` of `n` reads `fd[2(k-1)]` unless it is the first stage. */
  function StageStdin(n: nat, k: nat): (b: Binding)
    requires k < n
    ensures !b.File?
    ensures b.PipeFd? <==> 0 < k
    ensures b.PipeFd? ==> b.index == 2 * (k - 1) && b.index < DescriptorCount(n)
                          && PipeOf(b.index) == k - 1 && EndOf(b.index) == ReadEnd
  {
    if k != 0 then PipeFd(2 * (k - 1)) else Inherited
  }

  /** Every descriptor a stage uses is an entry of `fd`, stdin a read end and stdout a write end. */
  lemma DescriptorsInRange(n: nat, k: nat)
    requires k < n
    ensures StageStdin(n, k).PipeFd? ==>
              StageStdin(n, k).index < DescriptorCount(n) && EndOf(StageStdin(n, k).index) == ReadEnd
    ensures StageStdout(n, k).PipeFd? ==>
              StageStdout(n, k).index < DescriptorCount(n) && EndOf(StageStdout(n, k).index) == WriteEnd
  {
  }

  /** Stage `k` writes into pipe `k` and stage `k+1` reads from the same pipe. */
  lemma AdjacentStagesShareAPipe(n: nat, k: nat)
    requires k + 1 < n
    ensures StageStdout(n, k) == PipeFd(2 * k + 1) && StageStdin(n, k + 1) == PipeFd(2 * k)
    ensures PipeOf(2 * k + 1) == k && PipeOf(2 * k) == k
    ensures EndOf(2 * k + 1) == WriteEnd && EndOf(2 * k) == ReadEnd
  {
  }

  /** The first stage keeps the shell's stdin and the last keeps the shell's stdout. */
  lemma EndsKeepOwnStreams(n: nat)
    requires n > 0
    ensures StageStdin(n, 0) == Inherited && StageStdout(n, n - 1) == Inherited
    ensures forall k :: 0 < k < n ==> StageStdin(n, k).PipeFd?
    ensures forall k :: 0 <= k < n - 1 ==> StageStdout(n, k).PipeFd?
  {
  }

  /** Stage `a`'s output reaches stage `b`'s input through a pipe exactly when `b` follows `a`. */
  lemma ConnectedExactlyToNext(n: nat, a: nat, b: nat)
    requires a < n && b < n
    ensures (StageStdout(n, a).PipeFd? && StageStdin(n, b).PipeFd?
             && PipeOf(StageStdout(n, a).index) == PipeOf(StageStdin(n, b).index))
            <==> b == a + 1
  {
    if StageStdout(n, a).PipeFd? && StageStdin(n, b).PipeFd? {
      assert PipeOf(2 * a + 1) == a;
      assert PipeOf(2 * (b - 1)) == b - 1;
    }
  }

  /** The last of the `n` pipes the code allocates is never wired to any stage. */
  lemma LastPipeUnused(n: nat, k: nat)
    requires k < n
    ensures StageStdin(n, k).PipeFd? ==> PipeOf(StageStdin(n, k).index) < n - 1
    ensures StageStdout(n, k).PipeFd? ==> PipeOf(StageStdout(n, k).index) < n - 1
  {
    if StageStdin(n, k).PipeFd? {
      assert PipeOf(2 * (k - 1)) == k - 1;
    }
    if StageStdout(n, k).PipeFd? {
      assert PipeOf(2 * k + 1) == k;
    }
  }

  // ---------------------------------------------------------------------
  // Redirections on top of the pipe wiring
  // ---------------------------------------------------------------------

  datatype Streams = Streams(stdin: Binding, stdout: Binding)

  /** One call to `redirect` on the stage's streams. */
  function Rebind(s: Streams, pair: RedirectPair): Streams
  {
    match Redirect(pair)
    case None => s
    case Some(rb) =>
      if rb.stream == Stdout then s.(stdout := File(rb.path, rb.mode))
      else s.(stdin := File(rb.path, rb.mode))
  }

  /** The calls to `redirect` in the order `gen_args` makes them. */
  function ApplyRedirections(s: Streams, redirs: seq<RedirectPair>): Streams
    decreases redirs
  {
    if redirs == [] then s else ApplyRedirections(Rebind(s, redirs[0]), redirs[1..])
  }

  /** Stage `k`'s streams: the pipe `dup2`s first, then the redirections of its own tokens. */
  function StageStreams(n: nat, k: nat, stageTokens: seq<Token>): Streams
    requires k < n
  {
    ApplyRedirections(Streams(StageStdin(n, k), StageStdout(n, k)), Redirections(stageTokens))
  }

  /** The path of the last pair that rebinds stdout, searching from the end. */
  function LastOutputFile(redirs: seq<RedirectPair>): Option<Token>
  {
    if redirs == [] then None
    else
      var last := redirs[|redirs| - 1];
      if last.path.Some? && last.direction[0] == '>' then Some(last.path.value)
      else LastOutputFile(redirs[..|redirs| - 1])
  }

  /** The path of the last pair that rebinds stdin, searching from the end. */
  function LastInputFile(redirs: seq<RedirectPair>): Option<Token>
  {
    if redirs == [] then None
    else
      var last := redirs[|redirs| - 1];
      if last.path.Some? && last.direction[0] == '<' then Some(last.path.value)
      else LastInputFile(redirs[..|redirs| - 1])
  }

  lemma {:induction false} ApplyRedirectionsSnoc(s: Streams, redirs: seq<RedirectPair>, pair: RedirectPair)
    ensures ApplyRedirections(s, redirs + [pair]) == Rebind(ApplyRedirections(s, redirs), pair)
    decreases |redirs|
  {
    if redirs == [] {
      assert ([] + [pair])[1..] == [];
    } else {
      assert (redirs + [pair])[0] == redirs[0];
      assert (redirs + [pair])[1..] == redirs[1..] + [pair];
      ApplyRedirectionsSnoc(Rebind(s, redirs[0]), redirs[1..], pair);
    }
  }

  /** Each stream ends up bound to the last file redirected onto it, or keeps its binding. */
  lemma {:induction false} LastRedirectionWins(s: Streams, redirs: seq<RedirectPair>)
    ensures ApplyRedirections(s, redirs).stdout ==
              match LastOutputFile(redirs)
              case Some(p) => File(p, CreateTruncateWrite)
              case None => s.stdout
    ensures ApplyRedirections(s, redirs).stdin ==
              match LastInputFile(redirs)
              case Some(p) => File(p, ReadOnly)
              case None => s.stdin
    decreases |redirs|
  {
    if redirs != [] {
      var init := redirs[..|redirs| - 1];
      assert redirs == init + [redirs[|redirs| - 1]];
      ApplyRedirectionsSnoc(s, init, redirs[|redirs| - 1]);
      LastRedirectionWins(s, init);
    }
  }

  /** A stage's redirections take precedence over its pipe wiring, stream by stream. */
  lemma RedirectionOverridesPipe(n: nat, k: nat, stageTokens: seq<Token>)
    requires k < n
    ensures var out := LastOutputFile(Redirections(stageTokens));
            StageStreams(n, k, stageTokens).stdout ==
              if out.Some? then File(out.value, CreateTruncateWrite) else StageStdout(n, k)
    ensures var inp := LastInputFile(Redirections(stageTokens));
            StageStreams(n, k, stageTokens).stdin ==
              if inp.Some? then File(inp.value, ReadOnly) else StageStdin(n, k)
  {
    LastRedirectionWins(Streams(StageStdin(n, k), StageStdout(n, k)), Redirections(stageTokens));
  }
}
