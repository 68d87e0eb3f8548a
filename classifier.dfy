/**
 * Command classification over the token sequence of one input line:
 * the pipe, background and `fg` tests, and the split of a command into
 * its argument vector and its trailing redirections (`gen_args` and
 * `redirect` in shell.c).
 */
module Classifier {
  import opened Wrappers

  /** A token as the tokenizer hands it over: a non-empty string. */
  type Token = s: string | |s| > 0 witness "?"

  /** `tokens_get_token`: the token at index `i`, or None (NULL) past the end. */
  function GetToken(tokens: seq<Token>, i: nat): (r: Option<Token>)
    ensures r.None? <==> |tokens| <= i
    ensures r.Some? ==> r.value == tokens[i]
  {
    if i < |tokens| then Some(tokens[i]) else None
  }

  // ---------------------------------------------------------------------
  // Existence tests over the tokens
  // ---------------------------------------------------------------------

  /** Some token of the line begins with the character `c`. */
  ghost predicate SomeTokenStartsWith(tokens: seq<Token>, c: char)
  {
    exists i :: 0 <= i < |tokens| && tokens[i][0] == c
  }

  /** Some token of the line is exactly `word`. */
  ghost predicate SomeTokenIs(tokens: seq<Token>, word: string)
  {
    exists i :: 0 <= i < |tokens| && tokens[i] == word
  }

  /** The search loop shared by `check_pipes` and `check_background`. */
  method ScanFirstCharacters(tokens: seq<Token>, c: char) returns (found: bool)
    ensures found <==> SomeTokenStartsWith(tokens, c)
    ensures tokens == [] ==> !found
  {
    var argSize := |tokens|;
    if argSize == 0 {
      return false;
    }
    var i := 0;
    while i < argSize
      invariant 0 <= i <= argSize
      invariant forall j :: 0 <= j < i ==> tokens[j][0] != c
    {
      if tokens[i][0] == c {
        return true;
      }
      i := i + 1;
    }
    return false;
  }

  /** `check_pipes`: the line is a pipeline iff some token begins with `|`. */
  method CheckPipes(tokens: seq<Token>) returns (found: bool)
    ensures found <==> SomeTokenStartsWith(tokens, '|')
    ensures tokens == [] ==> !found
  {
    found := ScanFirstCharacters(tokens, '|');
  }

  /** `check_background`: the line runs in the background iff some token begins with `&`. */
  method CheckBackground(tokens: seq<Token>) returns (found: bool)
    ensures found <==> SomeTokenStartsWith(tokens, '&')
    ensures tokens == [] ==> !found
  {
    found := ScanFirstCharacters(tokens, '&');
  }

  /** `check_fg`: some token is exactly `fg` (not merely starting with it). */
  method CheckFg(tokens: seq<Token>) returns (found: bool)
    ensures found <==> SomeTokenIs(tokens, "fg")
    ensures tokens == [] ==> !found
  {
    var argSize := |tokens|;
    if argSize == 0 {
      return false;
    }
    var i := 0;
    while i < argSize
      invariant 0 <= i <= argSize
      invariant forall j :: 0 <= j < i ==> tokens[j] != "fg"
    {
      if tokens[i] == "fg" {
        return true;
      }
      i := i + 1;
    }
    return false;
  }

  // ---------------------------------------------------------------------
  // Argument vector and redirections
  // ---------------------------------------------------------------------

  /** A token that `gen_args` treats as a redirection operator: its first character is `>` or `<`. */
  predicate IsRedirectOperator(t: Token)
  {
    t[0] == '>' || t[0] == '<'
  }

  /** Index of the first redirection operator, or `|tokens|` when there is none. */
  function FirstOperator(tokens: seq<Token>): nat
  {
    if tokens == [] then 0
    else if IsRedirectOperator(tokens[0]) then 0
    else 1 + FirstOperator(tokens[1..])
  }

  lemma {:induction false} FirstOperatorIsFirst(tokens: seq<Token>)
    ensures FirstOperator(tokens) <= |tokens|
    ensures FirstOperator(tokens) < |tokens| ==> IsRedirectOperator(tokens[FirstOperator(tokens)])
    ensures forall j :: 0 <= j < FirstOperator(tokens) ==> !IsRedirectOperator(tokens[j])
  {
    if tokens != [] && !IsRedirectOperator(tokens[0]) {
      FirstOperatorIsFirst(tokens[1..]);
      assert forall j :: 1 <= j < FirstOperator(tokens) ==> tokens[j] == tokens[1..][j - 1];
    }
  }

  /** The argument vector `gen_args` builds: every token before the first operator. */
  function Argv(tokens: seq<Token>): seq<Token>
  {
    FirstOperatorIsFirst(tokens);
    tokens[..FirstOperator(tokens)]
  }

  /** A `(direction, path)` pair handed to `redirect`; the path is NULL when the operator ends the line. */
  datatype RedirectPair = RedirectPair(direction: Token, path: Option<Token>)

  /**
   * The pairs `gen_args` passes to `redirect`: at the first operator `i`,
   * `(t[i], t[i+1])`, then `(t[i+2], t[i+3])` when both of those exist.
   */
  function Redirections(tokens: seq<Token>): seq<RedirectPair>
  {
    FirstOperatorIsFirst(tokens);
    var i := FirstOperator(tokens);
    if i == |tokens| then []
    else
      [RedirectPair(tokens[i], GetToken(tokens, i + 1))]
      + (if GetToken(tokens, i + 2).Some? && GetToken(tokens, i + 3).Some?
         then [RedirectPair(tokens[i + 2], GetToken(tokens, i + 3))]
         else [])
  }

  /**
   * The shape of the recorded redirections: redirections are expected at the
   * end of a command, so at most an operator, its path, and one more
   * operator with its path are taken from the first operator on.
   */
  lemma RedirectionsShape(tokens: seq<Token>)
    ensures |Redirections(tokens)| <= 2
    ensures Redirections(tokens) == [] <==> (forall j :: 0 <= j < |tokens| ==> !IsRedirectOperator(tokens[j]))
    ensures Redirections(tokens) != [] ==>
              var i := FirstOperator(tokens);
              i < |tokens| && Redirections(tokens)[0] == RedirectPair(tokens[i], GetToken(tokens, i + 1))
              && IsRedirectOperator(Redirections(tokens)[0].direction)
    ensures |Redirections(tokens)| == 2 <==> FirstOperator(tokens) + 3 < |tokens|
    ensures |Redirections(tokens)| == 2 ==>
              var i := FirstOperator(tokens);
              Redirections(tokens)[1] == RedirectPair(tokens[i + 2], Some(tokens[i + 3]))
  {
    FirstOperatorIsFirst(tokens);
  }

  /** The argument vector: at most all the tokens, no operator in it, and never a token after one. */
  lemma ArgvShape(tokens: seq<Token>)
    ensures |Argv(tokens)| <= |tokens|
    ensures Argv(tokens) == tokens[..|Argv(tokens)|]
    ensures forall j :: 0 <= j < |Argv(tokens)| ==> !IsRedirectOperator(Argv(tokens)[j])
    ensures |Argv(tokens)| < |tokens| ==> IsRedirectOperator(tokens[|Argv(tokens)|])
    ensures (forall j :: 0 <= j < |tokens| ==> !IsRedirectOperator(tokens[j])) ==> Argv(tokens) == tokens
  {
    FirstOperatorIsFirst(tokens);
  }

  /** A command whose first token is an operator gets an empty argument vector: `arg[0]` is NULL. */
  lemma ArgvEmptyAtLeadingOperator(tokens: seq<Token>)
    requires tokens != [] && IsRedirectOperator(tokens[0])
    ensures Argv(tokens) == []
    ensures Redirections(tokens) != []
  {
  }

  /**
   * `gen_args`: NULL for an empty line; otherwise a fresh array of `|tokens| + 1`
   * slots whose prefix is the argument vector followed by a NULL terminator,
   * together with the redirections it passed to `redirect`.
   */
  method GenArgs(tokens: seq<Token>) returns (arg: array?<Option<Token>>, redirs: seq<RedirectPair>)
    ensures arg == null <==> tokens == []
    ensures arg != null ==> fresh(arg)
    ensures arg == null ==> redirs == []
    ensures arg != null ==>
              arg.Length == |tokens| + 1
              && |Argv(tokens)| < arg.Length
              && (forall j :: 0 <= j < |Argv(tokens)| ==> arg[j] == Some(Argv(tokens)[j]))
              && arg[|Argv(tokens)|] == None
    ensures arg != null ==> redirs == Redirections(tokens)
  {
    var argSize := |tokens|;
    if argSize == 0 {
      return null, [];
    }
    FirstOperatorIsFirst(tokens);
    arg := new Option<Token>[argSize + 1];
    redirs := [];
    var numArgs := 0;
    var i := 0;
    while i < argSize
      invariant 0 <= i <= argSize
      invariant numArgs == i <= FirstOperator(tokens)
      invariant forall j :: 0 <= j < numArgs ==> arg[j] == Some(tokens[j])
      invariant redirs == []
    {
      if IsRedirectOperator(tokens[i]) {
        redirs := [RedirectPair(tokens[i], GetToken(tokens, i + 1))];
        if GetToken(tokens, i + 2).Some? && GetToken(tokens, i + 3).Some? {
          redirs := redirs + [RedirectPair(tokens[i + 2], GetToken(tokens, i + 3))];
        }
        break;
      }
      arg[numArgs] := Some(tokens[i]);
      numArgs := numArgs + 1;
      i := i + 1;
    }
    arg[numArgs] := None;
  }

  // ---------------------------------------------------------------------
  // The effect of one redirection
  // ---------------------------------------------------------------------

  /** The standard stream a redirection rebinds: descriptor 0 or 1. */
  datatype StdStream = Stdin | Stdout

  function Descriptor(s: StdStream): nat
  {
    match s
    case Stdin => 0
    case Stdout => 1
  }

  /** How `redirect` opens the file: create-truncate-write for `>`, read-only for `<`. */
  datatype OpenMode = CreateTruncateWrite | ReadOnly

  /** The `open` + `dup2` that `redirect` performs, as a record instead of an effect. */
  datatype Rebinding = Rebinding(stream: StdStream, mode: OpenMode, path: Token)

  /**
   * `redirect`: dispatch on the first character of the direction only.
   * A direction starting with neither `>` nor `<` does nothing, and so does
   * a NULL path (its `open` fails and the `dup2` of the failed descriptor
   * leaves the stream as it was).
   */
  function Redirect(pair: RedirectPair): (r: Option<Rebinding>)
    ensures r.Some? <==> pair.path.Some? && IsRedirectOperator(pair.direction)
    ensures r.Some? ==> r.value.path == pair.path.value
    ensures r.Some? && r.value.stream == Stdout <==> r.Some? && pair.direction[0] == '>'
    ensures r.Some? ==> (r.value.stream == Stdout <==> r.value.mode == CreateTruncateWrite)
    ensures r.Some? ==> Descriptor(r.value.stream) == (if pair.direction[0] == '>' then 1 else 0)
  {
    match pair.path
    case None => None
    case Some(file) =>
      if pair.direction[0] == '>' then Some(Rebinding(Stdout, CreateTruncateWrite, file))
      else if pair.direction[0] == '<' then Some(Rebinding(Stdin, ReadOnly, file))
      else None
  }

  /** The first pair `gen_args` records always rebinds a stream, unless the operator ends the line. */
  lemma FirstRedirectionActs(tokens: seq<Token>)
    requires Redirections(tokens) != []
    ensures Redirect(Redirections(tokens)[0]).Some? <==> FirstOperator(tokens) + 1 < |tokens|
  {
    RedirectionsShape(tokens);
  }
}
