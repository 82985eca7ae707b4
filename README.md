# minishell in Dafny

A verified model of the core of minishell, a small bash-like shell written in C. It
covers the whole path a line takes through the shell:

- **lexer**: a line becomes words and the operators `|`, `<`, `>`, `<<`, `>>`. Quotes are removed and each word gets a quoting class. An unclosed quote fails the line.
- **expander**: `$?`, `$NAME` and a literal `$` are rewritten in every word that is not single-quoted. Words that became empty are then dropped.
- **parser**: the tokens become a right-leaning tree of pipes over simple commands. A simple command is its arguments plus its redirections.
- **environment store**: an ordered key/value list with `init_env`, `get_env_value`, `set_env_value` and `remove_env_var`, including their quirks.
- **built-ins**: `echo`, `cd`, `pwd`, `export`, `unset`, `env` and `exit`. They run in the shell process. Redirections are applied to a two-slot table (standard input, standard output) and restored afterwards.
- **executor**: the path precheck, the `$PATH` search, the `execve` errno mapping, the flattening of the environment, wait-status decoding, and pipelines, whose sides each run in a child.
- **main loop**: lex, expand, compact, record history, parse, execute, keep the status.

## How the model is built

**Modules.** There is one module per source component:

- `Libft` holds the libft helpers the sources call: `ft_itoa`, `ft_atoi`, `ft_split` and `ft_strncmp`. `Libft.Strncmp` compares like `ft_strncmp`, with `'\0'` read past the end of a string.
- `Lexer`, `Expander`, `Parser`, `EnvStore`, `Echo`, `Exit`, `Export`, `Unset`, `Cd`, `Builtins`, `Executor` and `Driver` follow the source files.
- `Os` holds the process state and the operating system's answers.

**Loops and specification functions.** Every C loop that computes something (a scan, a search, a filter, a rewrite) is a `method` with a `while` loop. The method is proved equal to a recursive specification function, and the properties are proved as lemmas about that function. The loops that only walk a linked list to its tail to append a node, and the copy of the argument list into the `args` array, are single sequence appends (see "## Left out").

**State that changes in place.** This is modelled with classes:

- `EnvStore.Env` is the `t_env` list, a `seq` of key/value pairs.
- `Os.Process` holds:
  - the working directory;
  - the current bindings of standard input and output;
  - a log of what was written to standard output (tagged with where it went);
  - the lines written to standard error.
- `Driver.Shell` holds `main`'s locals.

**The operating system.** It is the `Os.World` value. It gives, per path:

- `stat` and access answers;
- `open` results;
- `chdir`/`getcwd` results;
- the outcome of `execve` plus `waitpid`;
- `strerror` texts;
- whether `pipe` and `fork` fail.

One world serves the whole session, and its answers for `stat`, `open` and `execve` depend on the path text alone (see "## Left out").

**Commands.** A command's whole effect is `Builtins.Effect`: its outcome, the new store, the new directory, and what it wrote. `Executor.Run` computes it.

**Forks.** A forked child works on a fresh `Env.Copy` and `Process.Fork`. So nothing a child does reaches the shell except its status and its standard error.

## Model

| member | source | states |
|---|---|---|
| Libft.AtoiOfItoa | Minishell/minishell/src/expander/expander.c:21-29 | ft_atoi reads back exactly the number ft_itoa wrote, for every integer |
| Libft.SplitOfJoin | Minishell/minishell/src/exec/executor.c:155 | ft_split at ':' gives back the non-empty fields that were joined with ':' |
| Libft.KeyTestIsEquality | Minishell/minishell/src/init/env.c:93-95 | the key test (ft_strncmp over the key's length plus a length check) is exact string equality on C strings, so there is no prefix match |
| Libft.StrncmpPastEnd | minishell/src/builtins/builtins.c:4-23 | comparing one character past the end of the literal is string equality on C strings |
| Libft.IndexOf | Minishell/minishell/src/exec/executor.c:357 | ft_strchr finds the first occurrence, or reports that there is none |
| Lexer.RedirectAt | minishell/src/lexer/lexer.c:142-165 | `<<` is HEREDOC and `>>` is APPEND (longest match); a lone `<` or `>` is IN or OUT; the token text is the operator's literal text |
| Lexer.ExtractQuoted | minishell/src/lexer/lexer.c:47-73 | fails exactly when the quote is not closed before the end of the line; otherwise gives the content between the quotes and the position after the closing one |
| Lexer.ExtractWord | minishell/src/lexer/lexer.c:75-140 | the scanning loop computes the word specification WordFrom |
| Lexer.ReadPiece | minishell/src/lexer/lexer.c:92-131 | one pass of the word loop computes Piece: the contents of a closed quoted run with its quote added to the quoting, or a run of plain characters; None on an unclosed quote |
| Lexer.Lex | minishell/src/lexer/lexer.c:167-216 | the token loop computes TokensOf: tokens in line order, None on an unclosed quote |
| Lexer.SkipBlanks | minishell/src/lexer/lexer.c:177-178 | the blank skip stops at the first non-blank and leaves the tokens still to be read unchanged |
| Lexer.ReadToken | minishell/src/lexer/lexer.c:181-209 | one pass of the token loop computes TokenAt: a pipe, a redirection operator or a word, with the position after it; None on an unclosed quote |
| Lexer.WordText | minishell/src/lexer/lexer.c:53-71 | a word's value is its source span with the delimiting quotes of its quoted runs dropped |
| Lexer.WordQuoting | minishell/src/lexer/lexer.c:88-99 | the quoting class records exactly which quote characters opened a run: none, only `'`, only `"`, or both |
| Lexer.WordShape | minishell/src/lexer/lexer.c:114-133 | an unquoted word holds only plain characters and is never empty |
| Lexer.LexFailsIffUnclosed | minishell/src/lexer/lexer.c:101-106 | the lexer fails if and only if the line ends inside a quoted run |
| Lexer.BlankLineNoTokens | minishell/src/lexer/lexer.c:176-181 | the empty token list comes exactly from lines of spaces, tabs and newlines |
| Lexer.TokensWellFormed | minishell/src/lexer/lexer.c:183-213 | every token is well formed: operators carry their text and no quoting, unquoted words are non-empty |
| Expander.ExpandVariable | Minishell/minishell/src/expander/expander.c:3-77 | the scanning loop computes the expansion specification Expand |
| Expander.ExpandString | Minishell/minishell/src/expander/expander.c:79-104 | single-quoted words are copied verbatim; the other classes get the same substitution |
| Expander.ExpandTokens | Minishell/minishell/src/expander/expander.c:106-125 | the loop rewrites every token as ExpandAll does |
| Expander.ExpandAll | Minishell/minishell/src/expander/expander.c:112-124 | token count, order, kinds and quoting classes are kept; operators and single-quoted words are unchanged |
| Expander.CompactEmptyTokens | Minishell/minishell/src/expander/expander.c:127-154 | the unlinking pass computes Compact |
| Expander.Compact | Minishell/minishell/src/expander/expander.c:136-153 | no empty word is left, and every token that is not an empty word is kept |
| Expander.CompactOfAppend | Minishell/minishell/src/expander/expander.c:136-153 | compaction works token by token, so it keeps the relative order of the survivors |
| Expander.CompactIdempotent | Minishell/minishell/src/expander/expander.c:127-154 | compacting twice is compacting once |
| Expander.NoDollarUnchanged | Minishell/minishell/src/expander/expander.c:65-74 | a text without `$` expands to itself |
| Expander.StatusExpands | Minishell/minishell/src/expander/expander.c:21-29 | `$?` becomes the decimal text of the last status, which ft_atoi reads back as that status |
| Expander.NameExpands | Minishell/minishell/src/expander/expander.c:30-44 | `$NAME` becomes the variable's value, or nothing when it is unset |
| Expander.NameThenSeparator | Minishell/minishell/src/expander/expander.c:30-44 | the name is the longest run of name characters; what follows is expanded on its own |
| Expander.DollarOtherKept | Minishell/minishell/src/expander/expander.c:45-63 | `$` followed by a character that starts neither `$?` nor a name (`$$`, `$1`) stays `$` plus that character, and the rest expands on its own |
| Expander.TrailingDollarKept | Minishell/minishell/src/expander/expander.c:45-63 | a `$` at the end of the text stays `$` |
| Expander.ExpandSplits | Minishell/minishell/src/expander/expander.c:45-63 | expansion distributes over a split before a character that cannot continue a `$` form |
| Parser.ParseSimpleCmd | Minishell/minishell/src/parser/parser.c:48-148 | the token loop computes SimpleFrom: the command and the index of the token it stopped at |
| Parser.ParseTokens | Minishell/minishell/src/parser/parser.c:161-198 | the recursive parse computes Parse |
| Parser.SimpleCmdContents | Minishell/minishell/src/parser/parser.c:63-106 | the arguments are the words up to the first pipe, excluding redirection targets, in order; the redirections are the operators followed by a word, in order, each with that target; an operator without a word is dropped |
| Parser.ParseShape | Minishell/minishell/src/parser/parser.c:161-198 | parse gives null exactly for no tokens or a trailing pipe; otherwise a right-leaning tree with one stage more than there are pipes |
| Parser.TwoStagePipeline | Minishell/minishell/src/parser/parser.c:176-195 | `ls -l \| wc` parses to Pipe(Simple(ls -l), Simple(wc)) |
| Parser.RedirectionsAroundCommand | Minishell/minishell/src/parser/parser.c:99-106 | `< in cat > out` gives args [cat] and the two redirections in source order |
| EnvStore.Lookup | Minishell/minishell/src/init/env.c:86-99 | get_env_value returns null exactly when no key matches; otherwise it returns the value of the first matching entry |
| EnvStore.SplitAtEq | Minishell/minishell/src/init/env.c:65-71 | strings without '=' are skipped; the key is the text before the first '=' and the value is everything after it |
| EnvStore.SplitAtEqJoin | Minishell/minishell/src/init/env.c:70-71 | KEY=VALUE with a key free of '=' splits back into KEY and VALUE |
| EnvStore.InitEntries | Minishell/minishell/src/init/env.c:54-84 | at most one entry per envp string, and no key contains '=' |
| EnvStore.InitEntriesAppend | Minishell/minishell/src/init/env.c:39-52 | tail appends keep envp order: the entries of a concatenation are the concatenated entries |
| EnvStore.Env.Init | Minishell/minishell/src/init/env.c:54-84 | the construction loop builds InitEntries(envp) |
| EnvStore.Env.Get | Minishell/minishell/src/init/env.c:86-99 | the traversal returns Lookup |
| EnvStore.Env.Set | minishell/src/builtins/export.c:3-42 | the traversal overwrites the first matching entry or appends a new one |
| EnvStore.Env.Remove | Minishell/minishell/src/builtins/unset.c:16-63 | the traversal computes RemoveEntry, with head promotion and the blanked sole node |
| EnvStore.LookupAfterSet | minishell/src/builtins/export.c:8-36 | after setting a key, it reads the new value and every other key reads as before |
| EnvStore.SetKeys | minishell/src/builtins/export.c:22-36 | setting keeps the key order and adds the key at the tail only when it is new |
| EnvStore.SetEntryShape | minishell/src/builtins/export.c:8-36 | for a key already present, only its first entry gets the new value and every other entry, later duplicates included, is unchanged; a new key is appended at the tail |
| EnvStore.UniqueKeysKept | minishell/src/builtins/export.c:7-41 | neither setting nor removing introduces a duplicate key |
| EnvStore.RemoveEntryShape | Minishell/minishell/src/builtins/unset.c:24-62 | an absent key changes nothing; otherwise only the first match goes, the rest keeping their order; the sole entry becomes ("","") |
| EnvStore.LookupAfterRemove | Minishell/minishell/src/builtins/unset.c:26-37 | removing a key leaves every other non-empty key reading as before |
| EnvStore.LookupAfterRemoveGone | Minishell/minishell/src/builtins/unset.c:41-58 | with unique keys, a removed non-empty key no longer reads |
| EnvStore.SetViaCopy | minishell/src/builtins/export.c:3-42 | set through a copy of the head pointer: an empty store stays empty; otherwise the key reads the new value, every other key reads as before, and the key order is kept with a new key at the tail |
| Echo.NFlag | Minishell/minishell/src/builtins/echo.c:47-63 | is_n_flag accepts exactly `-` followed by one or more `n` |
| Echo.EFlagIsDashE | Minishell/minishell/src/builtins/echo.c:86 | the `-e` test is equality with "-e" |
| Echo.RenderWord | Minishell/minishell/src/builtins/echo.c:3-44 | the escape loop writes Render of the word |
| Echo.RenderVerbatim | Minishell/minishell/src/builtins/echo.c:10 | without -e, or on a word without a backslash, the word is written as is |
| Echo.RenderOfEscape | Minishell/minishell/src/builtins/echo.c:10-36 | interpreting the escapes inverts escaping: `\n \t \r \b \a \v \f \\` map back to their characters |
| Echo.UnknownEscapeKept | Minishell/minishell/src/builtins/echo.c:31-35 | with -e, a backslash before a character outside `ntrbavf\` prints the backslash and the character |
| Echo.TrailingBackslashKept | Minishell/minishell/src/builtins/echo.c:10-36 | with -e, a lone backslash at the end of a word is printed as is |
| Echo.ScanFlags | Minishell/minishell/src/builtins/echo.c:79-93 | the flag scan stops at the first argument that is neither an n-flag nor exactly -e, and reports which flags it saw |
| Echo.RenderWords | Minishell/minishell/src/builtins/echo.c:96-103 | the words are rendered and separated by single spaces |
| Echo.EchoText | Minishell/minishell/src/builtins/echo.c:65-110 | builtin_echo writes EchoOutput(args) |
| Echo.EchoWords | Minishell/minishell/src/builtins/echo.c:96-107 | plain arguments are written with single spaces and a final newline |
| Echo.EchoSuppressNewline | Minishell/minishell/src/builtins/echo.c:73-107 | a leading n-flag is not written and drops the final newline |
| Echo.EchoEscapes | Minishell/minishell/src/builtins/echo.c:10-36 | with -e, the escaped form of any text is written as that text |
| Echo.EchoBuiltin | Minishell/minishell/src/builtins/echo.c:65-110 | echo writes its text to the current standard output and returns 0 |
| Exit.ValidNumber | Minishell/minishell/src/builtins/exit.c:16-34 | the loop decides IsValidNumber: an optional sign and one or more digits, nothing else |
| Exit.ValidNumberValue | Minishell/minishell/src/builtins/exit.c:59-60 | a valid number reads as its sign applied to its digits |
| Exit.ExitOfItoa | Minishell/minishell/src/builtins/exit.c:53-60 | `exit n`, with n written in decimal, terminates with exactly n |
| Exit.ExitReturnsIff | Minishell/minishell/src/builtins/exit.c:47-51 | exit returns (status 1) instead of terminating exactly when given two or more arguments |
| Exit.ExitBuiltin | Minishell/minishell/src/builtins/exit.c:36-61 | "exit" is printed on every path; the outcome is ExitDecision(args) and the diagnostics are ExitErrors(args) |
| Export.ValidIdentifier | minishell/src/builtins/export.c:44-65 | is_valid_identifier accepts exactly the names: a letter or '_' followed by letters, digits and '_' |
| Export.Declarations | minishell/src/builtins/export.c:75-85 | one `declare -x K="V"` line per entry, in store order |
| Export.ListDeclarations | minishell/src/builtins/export.c:75-85 | export with no argument prints the declarations |
| Export.ExportArgs | minishell/src/builtins/export.c:87-125 | the argument loop computes ExportEntries, ExportErrors and ExportStatus |
| Export.ExportArg | minishell/src/builtins/export.c:91-120 | one argument: valid exactly when IsValidArg holds; a valid one is stored by ExportOne, an invalid one writes the not-a-valid-identifier line and leaves the store alone |
| Export.ExportBuiltin | minishell/src/builtins/export.c:67-126 | with no argument it lists the store and returns 0; otherwise it processes the arguments |
| Export.ExportAppend | minishell/src/builtins/export.c:87-125 | arguments act one after the other: two runs equal one run over both lists |
| Export.ExportSkipsInvalid | minishell/src/builtins/export.c:91-101 | an invalid argument changes nothing, does not stop the later arguments, and makes the status 1 |
| Export.ExportSetsValue | minishell/src/builtins/export.c:91-120 | on a non-empty store, `export NAME=VALUE` makes NAME read VALUE and `$NAME` expand to it |
| Export.ExportKeepsOthers | minishell/src/builtins/export.c:91-120 | every other name keeps its value |
| Export.ExportOnEmptyStore | minishell/src/builtins/export.c:3-42 | on an empty store export never adds anything, because the new node goes into a copy of the head |
| Export.ExportKeepsUniqueKeys | minishell/src/builtins/export.c:7-41 | export never introduces a duplicate key |
| Export.ExportErrorsIff | minishell/src/builtins/export.c:87-125 | the status is 0 exactly when no diagnostic was written |
| Unset.UnsetBuiltin | Minishell/minishell/src/builtins/unset.c:65-80 | each argument is removed in order, and the status is always 0 |
| Unset.UnsetRemoves | Minishell/minishell/src/builtins/unset.c:65-80 | with unique keys, every non-empty name given to unset reads as unset afterwards |
| Unset.UnsetKeepsOthers | Minishell/minishell/src/builtins/unset.c:65-80 | names not given keep their values |
| Unset.UnsetKeepsUniqueKeys | Minishell/minishell/src/builtins/unset.c:16-63 | unset never introduces a duplicate key |
| Cd.CdBuiltin | Minishell/minishell/src/builtins/cd.c:17-82 | the steps of builtin_cd compute Cd: status, store, directory and messages |
| Cd.DashIsMinus | Minishell/minishell/src/builtins/cd.c:45 | the `-` test is equality with "-" |
| Cd.CdFailureKeepsState | Minishell/minishell/src/builtins/cd.c:25-65 | status 0 exactly when there are at most one argument, a target and a successful chdir; on failure the store and directory are unchanged and one error is written |
| Cd.CdSetsPwdVars | Minishell/minishell/src/builtins/cd.c:68-81 | after success on a non-empty store, OLDPWD is the old directory and PWD the new one |
| Cd.CdDashSwaps | Minishell/minishell/src/builtins/cd.c:45-81 | `cd -` goes to OLDPWD, prints it, and the two variables trade places |
| Cd.CdOnEmptyStore | Minishell/minishell/src/builtins/cd.c:68-81 | on an empty store cd never records PWD or OLDPWD |
| Builtins.BuiltinNames | minishell/src/builtins/builtins.c:4-23 | exactly the seven names are built-ins, by full-string match, each dispatched to its own command |
| Builtins.Redirect | minishell/src/builtins/builtins.c:25-87 | the redirection loop computes RedirectAll: it stops at the first failure with its message |
| Builtins.RedirectAllMeaning | minishell/src/builtins/builtins.c:33-85 | succeeds exactly when no redirection fails; then the last input and the last output redirection win; heredocs count only where they are processed |
| Builtins.OneFailsAlike | minishell/src/builtins/builtins.c:36-84 | whether a redirection fails does not depend on the bindings it starts from |
| Builtins.EnvLines | Minishell/minishell/src/builtins/env.c:16-28 | env prints one KEY=VALUE line per entry, in store order |
| Builtins.EnvBuiltin | Minishell/minishell/src/builtins/env.c:16-28 | the loop prints EnvLines and returns 0 |
| Builtins.PwdBuiltin | Minishell/minishell/src/builtins/pwd.c:16-30 | pwd prints the directory and returns 0, or reports getcwd's error and returns 1 |
| Builtins.CallBuiltin | minishell/src/builtins/builtins.c:121-136 | dispatch by name runs the matching built-in |
| Builtins.ExecuteBuiltin | minishell/src/builtins/builtins.c:97-143 | a failed redirection restores the bindings and gives 1; otherwise the built-in runs and the bindings are restored |
| Executor.PrecheckPath | Minishell/minishell/src/exec/executor.c:26-59 | a missing file is 127 "No such file or directory", a directory 126 "Is a directory", a non-executable file 126 "Permission denied"; an executable file or any other stat error proceeds to execve |
| Executor.ExecErrnoStatus | Minishell/minishell/src/exec/executor.c:61-85 | a failed execve reports 127 exactly for ENOENT and 126 otherwise |
| Executor.EnvArray | Minishell/minishell/src/exec/executor.c:95-122 | one `key=value` string per entry, in store order |
| Executor.EnvToArray | Minishell/minishell/src/exec/executor.c:87-124 | the loop builds EnvArray |
| Executor.EnvArrayRoundTrip | Minishell/minishell/src/exec/executor.c:87-124 | init_env reads the array back as the same store |
| Executor.SearchPath | Minishell/minishell/src/exec/executor.c:141-204 | a failed search reports only 126 or 127 |
| Executor.SearchPathForCmd | Minishell/minishell/src/exec/executor.c:141-204 | the PATH loop computes SearchPath |
| Executor.FindProgram | Minishell/minishell/src/exec/executor.c:356-382 | a name with a slash is prechecked, any other is searched in PATH: the result is Locate, whose refusals carry 126 or 127 and their message |
| Executor.RunChild | Minishell/minishell/src/exec/executor.c:386-404 | the forked child computes ExternalChild: a failed redirection gives 1 and its message, a program that runs gives its wait status, a failed execve gives the status and message of map_exec_errno |
| Executor.SearchFromMeaning | Minishell/minishell/src/exec/executor.c:161-203 | the search finds a command exactly when some candidate is an executable non-directory, and then returns the first one; otherwise 126 exactly when some candidate lacked execute permission |
| Executor.CommandNotFoundWithoutPath | Minishell/minishell/src/exec/executor.c:151-153 | with PATH unset or empty, a name without '/' that is not a built-in is "command not found", 127 |
| Executor.StatusOf | Minishell/minishell/src/exec/executor.c:419-424 | a normal exit gives the low byte of its code, death by signal s gives 128 + s, any other status gives 1 |
| Executor.ChildStatus | Minishell/minishell/src/exec/executor.c:519-527 | a child's status, as its parent sees it, is the low byte of the status it returned or the code it exited with, so a byte status is passed through unchanged |
| Executor.ExternalKeepsShell | Minishell/minishell/src/exec/executor.c:338-434 | a command that is not a built-in never changes the store or the directory and never ends the shell |
| Executor.ExecuteSimple | Minishell/minishell/src/exec/executor.c:338-434 | execute_simple_command computes RunSimple |
| Executor.ExecuteCommand | Minishell/minishell/src/exec/executor.c:436-543 | execute_command computes Run: outcome, store, directory, output and standard error, the latter including both pipeline children's diagnostics |
| Executor.RunSide | Minishell/minishell/src/exec/executor.c:461-500 | a pipeline side runs in a forked child on a copy of the store; only its outcome and its standard error come back, as Run computes them |
| Executor.PathCommandMeaning | Minishell/minishell/src/exec/executor.c:357-367 | a non-builtin name with '/': missing is 127, a directory or a non-executable file 126, each with its message; otherwise the child runs the name itself |
| Executor.ProgramRanStatus | Minishell/minishell/src/exec/executor.c:386-424 | a found program whose redirections succeed reports its exit code's low byte, 128 plus its signal, or 1, and writes no diagnostic |
| Executor.PipelineReportsRight | Minishell/minishell/src/exec/executor.c:445-527 | with pipe and fork working, the pipeline reports the right side's status whatever the left side did, and both sides' diagnostics reach standard error, left first |
| Executor.PipelineKeepsShell | Minishell/minishell/src/exec/executor.c:436-528 | a pipeline never changes the shell's store, directory or output, never ends the shell, and reports a byte |
| Executor.ExitInPipeline | Minishell/minishell/src/exec/executor.c:477-527 | `… \| exit n` reports n's low byte and the shell goes on |
| Driver.Shell.Step | Minishell/minishell/src/main.c:27-67 | one iteration of main's loop computes Next |
| Driver.Shell.Repl | Minishell/minishell/src/main.c:27-67 | the loop computes Session over the typed lines |
| Driver.EndOfInputExitsZero | Minishell/minishell/src/main.c:29-34 | end of input prints "exit" and ends with 0, whatever the last status |
| Driver.IgnoredLines | Minishell/minishell/src/main.c:35-50 | a blank line, or a line with an unclosed quote, changes nothing |
| Driver.HistoryRecordsLine | Minishell/minishell/src/main.c:44-54 | history grows by the line exactly when tokens remain after compaction, and such a line is never empty |
| Driver.StatusOnlyFromCommands | Minishell/minishell/src/main.c:56-62 | the status, store and directory change only when parse returned a command |
| Driver.SessionEnds | Minishell/minishell/src/main.c:27-67 | every session ends: through exit, or at end of input |
| Driver.SessionStopsAtExit | Minishell/minishell/src/main.c:27-67 | lines after the one that ended the shell are never read |

## Left out

- I/O buffering: `printf` and `write` are both modelled as appending to the output log, and write sizes are not modelled.
- Signals: signal handling and the `signal(...)` calls around the waits are not modelled. A child killed by a signal appears only through the wait status it returns.
- Here-documents: their content is left out. `handle_heredoc` reads lines with readline in a child; the model keeps only the delimiter, the pipe it creates, and its pipe and fork failures.
- readline and add_history are not modelled as I/O. The typed lines are a parameter, and the history is a sequence.
- Memory: allocation failures and freeing are left out.
- Linked lists: the tail walks of `add_token` (lexer.c), `add_env_node` (env.c) and `add_redir` (parser.c), and `parse_simple_cmd`'s copy of the argument list into the `args` array, are each one sequence append. The model does not capture the node-by-node walk, the in-place linking of each node, or aliasing between nodes. It keeps the resulting order, which is what the source relies on.
- dup2 failures are not modelled, and neither is closing descriptors.
- Files: which files `open` with O_CREAT creates is not modelled.
- Os.World and Driver.Session: one world serves every line of a session, and its `stat`, `openRead`, `openWrite` and `exec` answers depend on the path text alone, not on the working directory. So a `cd` does not change how a later relative name (`./ls`, `out.txt`) resolves, and a file created by one command is not seen by a later one. Only `enter` (chdir) takes the current directory.
- Children's output: a child's writes to standard output are not logged in the shell process. Its standard error, which it shares with the shell, is.
- Pipelines: the two sides of a pipeline run concurrently, but the model runs them one after the other. Both use the same `fork` answer.
- `CMD_REDIRECT` and `TOKEN_EOF` are never produced by the lexer and parser. The `execute_command` null check is not modelled either, because the driver executes only a parsed command.
- Exit.ValidNumberValue: ft_atoi's overflow is not modelled; integers are unbounded. The exit code reaches the parent as its low byte (`Os.ExitCode`).
- NUL characters: Dafny strings may contain `'\0'`, and C strings cannot. The lemmas that relate the ft_strncmp tests to string equality require NUL-free strings.
- ft_split and the other libft functions are given functions. Their sources are not part of this model.
- `execve` runs an external program whose own effects are outside the model. Only its wait status is used.
- Executor.SearchPath: the "." fallback for an empty PATH field is modelled, but ft_split drops empty fields, so it is never used.
