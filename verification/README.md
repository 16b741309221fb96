# Models of the gateway's engines

The gateway shapes traffic on a packet queue, speaks DHCP, computes Internet checksums, counts
traffic in windows, and matches its options with its own copy of the GNU regular-expression engine.
These files model those parts and prove what they keep and what they compute.

- **Regular expressions** (`Bytes`, `Regex*`, `FailStack`). A pattern is read into a tree (`RegexParse`), written as
  byte code in place with back-patched jumps (`RegexCompiler`, whose state `RegexAssembly` ties to the
  code of the half-read pattern), and run by a backtracking machine that rewrites its own program (`RegexMachine` as
  a step function, `RegexMatcher` as the loop over the program, the registers and the failure stack of `FailStack`, all in arrays). `RegexTree.Spans` says what a tree
  matches; `RegexPaths` shows that the paths of the program spell exactly that; `RegexSound`,
  `RegexComplete`, `RegexTerminate` and `RegexOverflow` show what the machine returns; `RegexOpen` and `RegexRegisters`
  that its active registers stay in step with the groups open, on the programs that `RegexTame` tells, with
  `RegexFirm` for the groups that are over;
  `RegexRewrite` that its rewriting never matters; `RegexFirst`, `RegexFastmap` and `RegexSearch` that the fast search
  refines the naive one. `RegexGrammar` gives patterns as a user writes them, with a meaning stated without bytes, and
  `RegexReading`, `RegexEngine` and `RegexExec` carry the results over to them, `RegexGateway` to one of the gateway's own;
  `RegexAtoms` says what single atoms and anchors match without any tree, and `RegexTight` that the analysis of first characters finds no more than needed.
- **Queue and disciplines** (`Disciplines`, `Queues`, `Decisions`, `Dispatcher`, `DispatcherRuns`, `QueueObjects`). Each locked section
  is one step; `Decisions` says what disciplines, chains and queues decide in terms of packets, times and draws alone; times, random draws and filter verdicts are inputs. The classes in `QueueObjects` and
  `Dispatcher.QueueDispatcher` are proved equal to the functions about which the theorems speak.
- **Checksums** (`Checksum`), with 16-bit words, a 32-bit register and its wrap-around written out.
- **DHCP client** (`Dhcp`): options, frames with both checksums, and runs of the client.
- **Windowed counters** (`Counter`).

The fragment of the pattern language is POSIX extended syntax with literals, `.`, brackets, groups,
alternatives, repetitions and anchors. "Simple" patterns are those whose `*` and `+` repeat a single character,
`.`, or a bracket (a positive one without the last eight character codes). A group lies in a choice when an
alternative or the operand of a repetition holds it; the groups before the first such one are "firm". A pattern is "tame",
and its registers stay in step, when every outermost group past the firm ones and two more holds no group and does not
come first in an alternative but the last or in the operand of a repetition (`RegexOpen.Tame`). Patterns without a group
in a choice are tame, and those with at most two groups from the first such one on (`RegexTame.CompiledInStep`), which
covers the patterns of the gateway that lie in the fragment: its one pattern with a character class,
`^[[:space:]]*stop[[:space:]]*$`, does not.

Where comments and code disagree the models follow the code:

- A match is not always the longest one (`RegexLongest.MatchLongest` says exactly when it is).
- Dropping a loop's failure point before a literal is wrong for sets whose map has all 32 bytes (`RegexDecide.DropIsRight`).
- For loops over groups or over loops the machine can miss matches or not return (`RegexExamples`, with the pattern texts in `RegexTexts`); soundness holds for them all the same.
- Failure points are counted in unsigned words: with the lowest active register more than one past the highest, a push asks
  for another room than it fills. Patterns that are not tame can get there, and then fail with -2 or write past the stack
  (`RegexStrays`); tame ones never do (`RegexRegisters.RegistersInStep`).
- The delay discipline refuses every packet (`DispatcherRuns.DelayHoldsAll`); `DelayMeant` is the evident intent, used where the theorem is about a minimal delay.
- A band of rate zero approves an empty queue, and `last_ts` starts with any value; neither breaks the bucket's bound.
- A DHCP acknowledgement configures a client whether or not it asked (`Dhcp.ConfiguredMeansAsked` says when it has).

## Model

| member | source | states |
|---|---|---|
| `RegexExec.RegExec` | src/hl/regex.c:4813-4871 | For every spelled pattern within reach whose `*` and `+` repeat one character, and every text: compiling and searching returns the first position from which what the pattern stands for matches, -1 exactly when it matches nowhere; or -2 where the failure stack overflows, or is stopped where a push goes past it. The latter takes a push with its registers out of step, -2 that or a text without room for every fork; and for tame patterns no push is out of step |
| `RegexExec.FastExec` | src/hl/regex.c:2878-2991 | The search that computes and uses a fastmap returns the same, and -2 besides only where the analysis gives up on code of more than 6000 bytes; the byte beyond the program counts only where the last alternative is empty |
| `RegexExec.PatternDecides` | src/hl/regex.c:3380-3436 | At any one position: a length exactly when the pattern matches something from there, and the whole rest exactly when it matches the whole rest; or no room on the failure stack, which with room for every fork takes a push with its registers out of step; for tame patterns there is none |
| `RegexAtoms.DotFinds` | src/hl/regex.c:3564-3577 | Searching a text for `.` always has room, and finds the first character that is not null, or -1 exactly when there is none |
| `RegexAtoms.HatFinds` | src/hl/regex.c:3849-3862 | With `^` in front the leftmost match is at 0, exactly when the rest matches there and REG_NOTBOL is clear, and nowhere otherwise |
| `RegexAtoms.DotSpans` | src/hl/regex.c:3564-3577 | `.` matches exactly one character, any but the null character |
| `RegexAtoms.CharSpans` | src/hl/regex.c:3534-3559 | A character matches itself and nothing else |
| `RegexAtoms.BracketSpans` | src/hl/regex.c:3579-3603 | A bracket matches exactly one character, one in a range listed, or for a complemented one in none |
| `RegexAtoms.HatSpans` | src/hl/regex.c:3849-3862 | A pattern that begins with `^` matches at the beginning of the text only, what the rest matches there, and nothing under REG_NOTBOL |
| `RegexAtoms.DollarSpans` | src/hl/regex.c:3865-3881 | A pattern that ends in `$` matches what the rest matches up to the end of the text only, and nothing under REG_NOTEOL |
| `RegexAtoms.Written` | src/hl/regex.c:1181-1580 | The bytes by which atoms, anchors, repetitions, bars, groups and brackets are written |
| `RegexExec.SearchIsLeftmost` | src/hl/regex.c:2957-2991 | Whatever a search of the whole text finds is the leftmost match of the compiled tree, unless a match at some start has no room on the failure stack, and then that result is returned |
| `RegexExec.MissedHasNone` | src/hl/regex.c:2923-2951 | No match starts where re_match_2 returns -1, nor where the fastmap makes the search pass over a match without room on the stack |
| `RegexExec.ShortIsTamed` | src/hl/regex.c:1063-2050 | Patterns of up to 963 characters compile, all of their code in reach of a jump; with at most 255 groups they are tame if no group lies in a choice, or at most two come from the first one that does on |
| `RegexExec.RoomAt` | src/hl/regex.c:2354-2448 | At any start the failure stack is overrun only if a push in that match is out of step, and overflows only then or on a text without room for every fork |
| `RegexExec.Compile` | src/hl/regex.c:4738-4795 | regcomp leaves in the buffer exactly the code of the parsed tree and reports its group count |
| `RegexEngine.PathsSpellPattern` | src/hl/regex.c:1063-2050 | Compiler correctness, for every spelled pattern that compiles to code within reach of a 16-bit jump: the nondeterministic paths of the program from 0 to its end spell exactly the stretches that the written pattern stands for |
| `RegexEngine.MatchPattern` | src/hl/regex.c:3162-4342 | For every such pattern, whatever length the matcher returns is a stretch the pattern stands for; a push goes past the stack only after one with its registers out of step, never for tame patterns; for one-character loops enough steps give an answer that decides matching, unless the stack overflowed or was overrun |
| `RegexEngine.SpelledReachable` | src/hl/regex.c:936-968 | A spelled pattern fails to compile for want of buffer space only, and one of up to 963 characters compiles within reach |
| `RegexEngine.ShortPatternsFit` | src/hl/regex.c:936-968 | No pattern of up to 1927 characters can fail with the size error, and code takes at most 34 bytes a pattern character |
| `RegexReading.SpelledPatternReads` | src/hl/regex.c:1063-2050 | Round trip: parsing the spelling of a pattern either overflows the buffer or gives a well-formed tree that matches exactly what the pattern stands for |
| `RegexReading.ReadMembers` | src/hl/regex.c:1384-1520 | A spelled bracket list (leading `]` or `-`, trailing `-`, singles, ranges, ranges from `]` or `-` or up to `-`) reads back as exactly those ranges, ending after the closing bracket |
| `RegexReading.ReadReps` | src/hl/regex.c:1233-1278 | A run of `*`, `+`, `?` collapses to one repetition that matches the same as the repetitions applied one after the other |
| `RegexReading.ReadParen` | src/hl/regex.c:1580-1686 | A spelled group is read as one repeatable expression matching what its inside stands for |
| `RegexReading.ReadAlts` | src/hl/regex.c:1694-1732 | Alternatives of one level are read in order into a tree that matches what any of them stands for |
| `RegexReading.RepeatedAnchor` | src/hl/regex.c:1183-1222 | A repetition straight after `^` or `$` takes hold of the expression before the anchor together with the anchor, and is ignored when nothing stands before |
| `RegexGrammar.StarIsInARow` | src/hl/regex.c:1213-1343 | `x*` matches what n copies of x in a row match for some n, `x+` the same with n at least 1 |
| `RegexGrammar.TwoLoops` | src/hl/regex.c:1233-1278 | Two repetitions in a row mean one: only `??` stays `?` and only `++` stays `+` |
| `Bytes.NumberRoundTrip` | src/hl/regex.c:386-409 | A stored jump offset reads back as itself if and only if it lies in -32768..32767 |
| `Bytes.SetBitSetsOnlyThatBit` | src/hl/regex.c:1013-1015 | Setting a bit sets that bit and leaves every other bit of the byte as it was |
| `RegexBracket.MapHolds` | src/hl/regex.c:1374-1519 | The bitmap built range by range holds a character exactly when some listed range contains it |
| `RegexBracket.TrimmedHolds` | src/hl/regex.c:1522-1526 | Dropping zero bytes at the end of the map changes the membership of no character |
| `RegexBracket.BracketMatches` | src/hl/regex.c:3579-3603 | For all 256 characters, the compiled set, negated or not, matches exactly when the list says so |
| `RegexParse.ParseGood` | src/hl/regex.c:1063-2050 | Every pattern that compiles yields a tree whose literal runs, bitmaps and registers fit the byte layout |
| `RegexParse.ShiftGood` | src/hl/regex.c:1181-2032 | Every construct read keeps the compile state well formed, stack of open groups included |
| `RegexEngine.LexWithin` | src/hl/regex.c:1171-2032 | Every construct read ends past where it began and inside the pattern, unfinished ones included |
| `RegexGroups.GroupsNumbered` | src/hl/regex.c:1580-1686 | Groups are numbered by their opening parentheses, each carries the count of groups inside it, and the count reported is the number of groups |
| `RegexGroups.ShiftNumbered` | src/hl/regex.c:1580-1686 | Every compile step keeps the numbering of finished and open groups |
| `RegexSearch.ParseTidy` | src/hl/regex.c:1694-1732 | In compiled trees alternatives occur only as whole group or pattern bodies, chained to the right, as the analysis of the fastmap expects |
| `RegexCode.Layout` | src/hl/regex.c:1213-1343 | In the emitted code every operand lies where its jumps say, and every jump decodes to the target its construct calls for |
| `RegexTiles.TileStep` | src/hl/regex.c:1063-2050 | Commands tile the buffer: each ends at the start of the next, with no command start inside it |
| `RegexDepth.DepthStep` | src/hl/regex.c:1213-1343 | Every jump of a compiled program lands on a position of the program, at a loop depth that the stacked points cover |
| `RegexAssembly.AppendNew` | src/hl/regex.c:1340-1349 | Writing a new expression at the end keeps the buffer equal to the code of the half-read pattern |
| `RegexAssembly.ReplaceLast` | src/hl/regex.c:1283-1342 | Rewriting the last expression in place leaves everything before it valid |
| `RegexAssembly.Alternate` | src/hl/regex.c:1694-1732 | Inserting the failure jump before an alternative and filling in the jump waiting after the one before keeps every completed jump right |
| `RegexAssembly.ChainCode` | src/hl/regex.c:1694-1732 | Once its last jump is filled in, the chain of alternatives is exactly the code of one right-nested choice |
| `RegexAssembly.CloseChain` | src/hl/regex.c:1634-1645 | Closing a level patches one jump, changes nothing before the level, and leaves the code of its tree |
| `RegexAssembly.OpenGroup` | src/hl/regex.c:1580-1622 | Opening a group keeps the buffer valid with the inner count still open |
| `RegexAssembly.CloseHolds` | src/hl/regex.c:1634-1686 | Closing a group patches the inner count and the last jump and appends stop_memory, giving the code of the enclosing half-read pattern |
| `RegexCompiler.RegexCompile` | src/hl/regex.c:1063-2050 | The in-place compiler fails exactly when the pattern has an error or overflows 65536 bytes, with that error, and otherwise leaves exactly the code of the parsed tree |
| `RegexCompiler.Compiler.constructor` | src/hl/regex.c:1144-1172 | The compiler starts with an empty, valid buffer and no open group |
| `RegexCompiler.Compiler.Extend` | src/hl/regex.c:936-968 | The buffer grows, never past the maximum, and keeps its contents |
| `RegexCompiler.Compiler.Reserve` | src/hl/regex.c:884-886 | Space is found exactly when the code stays within the maximum size; what was written stays |
| `RegexCompiler.Compiler.StoreOp1` | src/hl/regex.c:2064-2072 | Three bytes are overwritten with the jump, and no other byte changes |
| `RegexCompiler.Compiler.InsertOp1` | src/hl/regex.c:2092-2108 | The jump stands at the place given, with all code from there on moved up by three and nothing lost in the overlap |
| `RegexCompiler.Compiler.ShiftUp` | src/hl/regex.c:2100-2104 | The backward overlapping copy moves every byte before it is overwritten |
| `RegexCompiler.Compiler.AppendJump` | src/hl/regex.c:917-918 | A jump stored at the end leads to the target given |
| `RegexCompiler.Compiler.InsertJump` | src/hl/regex.c:925-926 | A jump inserted in the middle leads to the target given, and the buffer end moves on |
| `RegexCompiler.Compiler.AddOne` | src/hl/regex.c:1346-1349 | A one-byte command is appended; a repetition may take hold of `.` but not of an anchor |
| `RegexCompiler.Compiler.AddExact` | src/hl/regex.c:1999-2032 | A literal extends the last run of at most 255 characters unless a repetition follows, and otherwise starts a run of its own |
| `RegexCompiler.Compiler.AddRepeat` | src/hl/regex.c:1213-1343 | Inserting the jumps of `*`, `+` or `?` around the last expression leaves the code of the looped tree |
| `RegexCompiler.Compiler.OpenGroup` | src/hl/regex.c:1580-1622 | Pointers of the enclosing level are set aside and start_memory is written, or the size error is given |
| `RegexCompiler.Compiler.Alternative` | src/hl/regex.c:1694-1732 | The byte-level work of the bar agrees with the parser, `fixup_alt_jump + 3 == begalt` afterwards |
| `RegexCompiler.Compiler.CloseParen` | src/hl/regex.c:1664-1686 | Closing a group restores the pointers of the enclosing level and leaves its code valid |
| `RegexCompiler.Compiler.LoneParen` | src/hl/regex.c:1624-1652 | A `)` that closes nothing is taken as the code takes it, dummy failure included |
| `RegexCompiler.Compiler.SetListBit` | src/hl/regex.c:1013-1015 | One character joins the map beyond the end of the code, and the code is untouched |
| `RegexCompiler.Compiler.CompileRange` | src/hl/regex.c:2201-2244 | Every character of the range joins the map, an inverted or unfinished range is a range error, and the code is untouched |
| `RegexCompiler.Compiler.ReadMembers` | src/hl/regex.c:1384-1520 | Reading a bracket list sets exactly the bits of the ranges parsed, or gives the parser's error |
| `RegexCompiler.Compiler.TrimMap` | src/hl/regex.c:1522-1526 | The length byte counts down past trailing zero bytes and nothing before it changes |
| `RegexCompiler.Compiler.AddBracket` | src/hl/regex.c:1352-1526 | A bracket expression becomes its set command with its trimmed map |
| `RegexCompiler.Compiler.ReadRepeats` | src/hl/regex.c:1233-1278 | The loop over repetition characters collapses them as the parser does |
| `RegexCompiler.Compiler.Construct` | src/hl/regex.c:1171-2032 | Each construct leaves the buffer, the pointers and the compile stack in agreement with the parser state, or stops with its error |
| `RegexCompiler.Compiler.Conclude` | src/hl/regex.c:2036-2050 | At the end the last jump is filled in, unless a group is still open, and the buffer is the code of the whole tree |
| `RegexPaths.PathsSpellTree` | src/hl/regex.c:1063-2050 | For every tree, a path through its code from 0 to the end spells a stretch of text exactly when the tree matches it |
| `RegexResid.ResidStep` | src/hl/regex.c:3520-4285 | One-step equation: at every command the ends that can be reached are those reachable after it, over both ways where it forks |
| `RegexTree.PlusIsCatStar` | src/hl/regex.c:1213-1343 | `x+` matches exactly what `xx*` matches |
| `RegexTree.StarUnfolds` | src/hl/regex.c:1213-1343 | `x*` matches nothing, or x followed by `x*` |
| `RegexSound.MatcherSound` | src/hl/regex.c:3376-4335 | For every compiled program, group loops and empty iterations included: the machine never pops an empty stack, returns nothing below -2, and any length it returns labels a path and a match of the tree; what a push does is counted in unsigned words, as the code counts it |
| `RegexSound.StepOk` | src/hl/regex.c:3376-4335 | Every command keeps the invariant over the current state and every stacked point |
| `RegexSound.FailOk` | src/hl/regex.c:4289-4342 | Failing back resumes only at places from which every end is a match from the start |
| `RegexSound.LoopAroundOk` | src/hl/regex.c:3706-3777 | The exit from a loop whose group matched nothing leads to a sound place outside the loop |
| `RegexRoles.RoleStep` | src/hl/regex.c:1213-1343 | In one-character loops the only way into the closing jump is through the body, whose head holds the loop's failure point |
| `RegexDecide.DecideBeforeLiteral` | src/hl/regex.c:4014-4050 | Before a literal the failure point is dropped exactly when the body cannot match its first character, or is a positive set with a full 32-byte map, never for `.` |
| `RegexDecide.DropIsRight` | src/hl/regex.c:4032-4049 | When it is dropped, the body really cannot match the literal's first character if and only if it is not a full-map set holding that character |
| `RegexDecide.DroppedEnds` | src/hl/regex.c:3979-4062 | From the dropped point nothing could be reached past the loop, except the place itself at the end of the pattern |
| `RegexComplete.StepFinds` | src/hl/regex.c:3376-4335 | Each command loses no match: what was reachable is still current, held as best, or stacked |
| `RegexComplete.DropFinds` | src/hl/regex.c:4061-4093 | Dropping the loop's failure point at pop_failure_jump loses neither acceptance nor a longer candidate |
| `RegexTerminate.MatcherComplete` | src/hl/regex.c:3380-3436 | Where loops repeat one character the machine ends, and unless it returns -2 or a push goes past the stack a length comes back exactly when something matches, the whole rest exactly when that matches |
| `RegexTerminate.StepLighter` | src/hl/regex.c:3376-4335 | Every step lowers a weight summed over the current state and all stacked points |
| `RegexOverflow.NoOverflow` | src/hl/regex.c:2301-2312 | Where loops repeat one character: if the characters left plus one, times the commands that push, is at most 2000, the failure stack overflows or is overrun only after a push with its registers out of step |
| `RegexOverflow.MatcherDecides` | src/hl/regex.c:3380-3436 | Under that bound the matcher decides matching outright unless a push is out of step, and for tame trees none is |
| `RegexOverflow.PushFits` | src/hl/regex.c:2354-2379 | A push with the registers in step that keeps the number of points within the bound always finds room |
| `RegexOpen.RegStep` | src/hl/regex.c:1597-1680 | Compiled group commands name registers within the group count, inner groups included |
| `RegexOpen.OpenStep` | src/hl/regex.c:1597-1680 | Which groups are open at a position of a program is well defined: a start_memory opens its group, a stop_memory closes the innermost one, and no other command, jump or way out changes them |
| `RegexOpen.NumberStep` | src/hl/regex.c:1597-1680 | A group begun has a number above all groups open around it; begun right inside group y it tells that y holds a group, and y + 1 begun with none open that y holds none |
| `RegexOpen.TameStep` | src/hl/regex.c:3936-3974 | In tame programs no group begins within an outermost one past the firm groups and two more, and none past those comes right after a choice |
| `RegexFirm.SeenStep` | src/hl/regex.c:1597-1680 | How many firm groups (those before the first that lies in a choice) have begun is well defined at each position: they begin in turn, others only after all of them, and no other command, jump or way out changes the count |
| `RegexRegisters.RegistersInStep` | src/hl/regex.c:2354-2448 | For every tame compiled program, every text and every state reached: the lowest active register is at most one past the highest, the stack is whole failure points that fit it, every push asks for exactly what it stores, and none writes past its end |
| `RegexRegisters.AsksWhatItStores` | src/hl/regex.c:2443-2448 | In unsigned words a push asks for exactly the items it stores if and only if the lowest register is at most one past the highest |
| `RegexRegisters.OverrunStrays` | src/hl/regex.c:2371-2448 | On every program, compiled or not, every text and every run: the points fit the stack until a push finds the lowest register more than one past the highest, and only such a push writes past its end |
| `RegexRegisters.RoomForAll` | src/hl/regex.c:2371-2379 | With registers in step a push is refused with -2 or fits |
| `RegexRegisters.StepSteady` | src/hl/regex.c:3376-4335 | Every command keeps the registers, and those saved in every stacked point, in step with the groups open and over, points further up never behind those further down |
| `RegexRegisters.StopShape` | src/hl/regex.c:3674-3703 | Closing a group, the scan for the highest active register finds none only where no group is left open, and otherwise one that covers the groups left open and is at most one below the lowest |
| `RegexRegisters.CoverShape` | src/hl/regex.c:3955-3970 | The registers that on_failure_jump saves before a group cover those of the groups open |
| `RegexRegisters.FailSteady` | src/hl/regex.c:4289-4342 | Failing back restores registers that are in step at the place resumed, those of groups over there at rest |
| `RegexTame.CompiledInStep` | src/hl/regex.c:1580-1686 | Every compiled pattern of at most 255 groups is tame when no group lies in a choice, however groups nest, and when at most two come from the first one that does on; a tame one keeps its registers in step |
| `RegexGateway.GroupsFrom` | src/hl/regex.c:1580-1622 | A pattern has at most as many groups as opening parentheses |
| `RegexGateway.QueueCommandCovered` | src/virtual_gw.h:133 | The pattern every queue command passes through, q:([-_A-Za-z0-9]+) +(.*), is a spelled pattern of one-character loops within reach, and tame |
| `RegexStrays.AlmostAWordAsked` | src/hl/regex.c:2443-2445 | x(ab) or x(a)(a)((c)?)d? (two alternatives) on `xaa`: registers 4 to 1 are active at the last choice, almost 2^32 items are asked for, and -2 comes back although all of the text matches |
| `RegexTexts.WrappedText` | src/hl/regex.c:1580-1732 | x(ab) or x(a)(a)((c)?)d? (two alternatives) compiles to that program, with five groups |
| `RegexStrays.TooFewAsked` | src/hl/regex.c:2443-2445 | x(ab) or x(a)((c)?)d?d?d? (two alternatives) on `xadd`: one item is asked for and four are stored, and the third such push goes past the end of the stack |
| `RegexTexts.ShortText` | src/hl/regex.c:1580-1732 | x(ab) or x(a)((c)?)d?d?d? (two alternatives) compiles to that program, with four groups |
| `RegexLongest.MatchLongest` | src/hl/regex.c:3385-3436 | The length returned is the longest match if and only if the last candidate, reached with an empty stack, did not beat the one kept |
| `RegexLongest.LongestExactly` | src/hl/regex.c:3413-3426 | At the last step the returned length is longest exactly when no longer candidate is overtaken by the restored best |
| `RegexRewrite.EarlierMatchesDoNotMatter` | src/hl/regex.c:3979-4057 | A match on the program left by any number of earlier matches gives what it gives on the freshly compiled one, and what a machine that never rewrites gives |
| `RegexRewrite.RewritingRun` | src/hl/regex.c:3979-4057 | Along a run every rewritten program differs from the fresh one only in settled loop jumps, and the outcomes agree |
| `RegexRewrite.SameStep` | src/hl/regex.c:3376-4335 | One step on such a program equals the step on the fresh one |
| `RegexRewrite.BackToHead` | src/hl/regex.c:1285-1330 | Every maybe_pop_jump leads back to an on_failure_jump that leads just past it |
| `RegexExamples.ShorterCandidateKept` | src/hl/regex.c:3413-3426 | x or xy (two alternatives) on `xyz` returns 1 although 2 characters match: the longest-match comment does not hold of the code |
| `RegexTexts.XOrXyText` | src/hl/regex.c:1694-1732 | The text x or xy (two alternatives) compiles to the program that keeps the shorter candidate |
| `RegexExamples.WideLoopMatchesNothing` | src/hl/regex.c:4032-4049 | A starred set with a full 32-byte map followed by one of its characters fails on text that it matches |
| `RegexTexts.WideText` | src/hl/regex.c:1352-1526 | A bracket with the characters 97 and 255, starred, and an a compile to the program that matches nothing |
| `RegexExamples.LoopOverLoopNeverReturns` | src/hl/regex.c:3979-4062 | `a*^*` on an empty text never returns, however many steps are taken |
| `RegexTexts.StarStarText` | src/hl/regex.c:1183-1278 | `a*^*` compiles to the program that never returns |
| `RegexExamples.GroupRunMisses` | src/hl/regex.c:4061-4093 | `(aaa?)*` on `aaaa` stops after 3 characters although 4 match: the wrong failure point is dropped |
| `RegexTexts.GroupText` | src/hl/regex.c:1580-1686 | `(aaa?)*` compiles to the program that misses a match, with one group |
| `RegexExamples.EmptyTurnLeaves` | src/hl/regex.c:3706-3777 | `(a?)*` on an empty text returns 0: a turn that matches nothing leaves the loop around the group |
| `RegexTexts.TurnText` | src/hl/regex.c:1580-1686 | `(a?)*` compiles to that program, with one group |
| `RegexTexts.RangeText` | src/hl/regex.c:2201-2244 | `[x-y]` compiles to the set of that range unless x is above y, which is the range error, a range of one character included |
| `RegexTexts.UnfinishedTexts` | src/hl/regex.c:1531-1573 | An open parenthesis, an open bracket and a backslash at the end give their errors |
| `RegexTexts.LoneText` | src/hl/regex.c:1624-1652 | A closing parenthesis with nothing to close stands for itself |
| `RegexTexts.LoneAfterBar` | src/hl/regex.c:1624-1652 | After a bar it leaves a lone failure point before itself |
| `RegexTexts.ChoiceCode` | src/hl/regex.c:1654-1686 | The code of (x or y) byte by byte: both jumps around the first alternative, and the lone failure point before stop_memory |
| `RegexTexts.PlusCode` | src/hl/regex.c:1285-1343 | The code of x+ byte by byte, with the dummy jump over the loop's own failure jump |
| `RegexMatcher.ReMatch2` | src/hl/regex.c:3162-4342 | The loop over the stack array, the register array and the program returns what the step function gives on the fresh program, leaves only settled jumps; any length returned is a match, and no push goes past the stack where registers stay in step |
| `RegexMatcher.Matcher.PushFailurePoint` | src/hl/regex.c:2354-2426 | What becomes of the array and the stack is what the machine step says: the point joins it, or it is refused past the limit, or stopped before it writes past the end |
| `RegexMatcher.Matcher.Resume` | src/hl/regex.c:4289-4335 | One point comes off the array with its registers, and is resumed unless it is a dummy or a loop jump |
| `RegexMatcher.Matcher.SetRegsMatched` | src/hl/regex.c:3036-3050 | Every active register is marked and no other changes |
| `RegexMatcher.Matcher.CloseRegister` | src/hl/regex.c:3670-3705 | The register is closed and the scan over the array finds the highest active one below it |
| `RegexMatcher.NamesRegisters` | src/hl/regex.c:3611-3705 | The matcher never looks at a register the array does not have |
| `RegexMatcher.Matcher.FailBack` | src/hl/regex.c:4289-4342 | Points are popped until one can be resumed, dummies and loop jumps passed over; without one the best length or -1 is returned |
| `RegexMatcher.Matcher.EndOfPattern` | src/hl/regex.c:3380-3436 | At the end of the pattern the match is returned, recorded as a candidate, or given up as the code does |
| `RegexMatcher.Matcher.StopMemory` | src/hl/regex.c:3654-3781 | The register is closed, and a loop whose group matched nothing is left through a point pushed for its exit |
| `RegexMatcher.Matcher.OnFailureJump` | src/hl/regex.c:3936-3974 | A point for the other way is pushed, with the registers of a group that follows saved as well |
| `RegexMatcher.Matcher.MaybePopJump` | src/hl/regex.c:3979-4062 | The opcode byte is overwritten for good by what the follower decides, and the jump is taken accordingly |
| `RegexMatcher.Matcher.Advance` | src/hl/regex.c:3376-4285 | One iteration is exactly one step of the machine, and writes no byte but the settled jump |
| `RegexMatcher.Loop` | src/hl/regex.c:3376-4342 | Iterating gives the outcome of running the fresh program for as many steps |
| `FailStack.PointsDetermined` | src/hl/regex.c:2354-2448 | The items on a stack can be read back as failure points in only one way |
| `FailStack.SameRoom` | src/hl/regex.c:2440-2448 | The items in the array are as many as the matcher accounts for |
| `FailStack.PushAgrees` | src/hl/regex.c:2354-2426 | Pushing on the array does, refuses and oversteps exactly what the matcher step does with its frames |
| `FailStack.PopAgrees` | src/hl/regex.c:2463-2518 | Popping from the array leaves in the registers exactly what the matcher step restores |
| `FailStack.TopOfStack` | src/hl/regex.c:2463-2518 | On top lie the registers, low, high, pattern place and string place of the last point; what is below is the rest of the points |
| `FailStack.Stack.constructor` | src/hl/regex.c:2281-2290 | The stack starts with 5 free items and no points |
| `FailStack.Stack.Double` | src/hl/regex.c:2301-2312 | Doubling is refused exactly past 2000 times the largest point, and copies nothing away |
| `FailStack.Stack.Reserve` | src/hl/regex.c:2370-2379 | The growth loop ends, with room for the items exactly when the limit allows |
| `FailStack.Stack.Push` | src/hl/regex.c:2354-2426 | For every register state: room is made for the items asked for in unsigned words, then a whole point with registers low..high joins the stack, or the push is refused, or it is stopped before the item that would go past the end |
| `FailStack.Stack.Pop` | src/hl/regex.c:2463-2518 | Pop after push restores pattern place, string place and registers low..high, and no other register changes |
| `FailStack.Stack.Drop` | src/hl/regex.c:4061-4093 | Popping into dummies removes the last point and changes no register |
| `RegexFirst.FirstSound` | src/hl/regex.c:2520-2531 | A nonempty match begins with a character the tree can start with, and an empty one needs a tree that can match nothing |
| `RegexTight.FirstExact` | src/hl/regex.c:2520-2531 | For trees without anchors the analysis is exact: a character other than null can begin a match exactly if some text that begins with it is matched, and the empty match is possible exactly if the empty text is matched |
| `RegexFirst.FirstStep` | src/hl/regex.c:2585-2797 | At each command of a compiled program, what can come first there follows from what can come first where it leads |
| `RegexFastmap.CompileFastmap` | src/hl/regex.c:2533-2803 | The analysis ends, and marks exactly the characters the tree can start with when `.` counts as any character and anchors as holding, with `can_be_null` exactly when on the same terms it can match nothing; it gives up only on code of more than 6000 bytes |
| `RegexFastmap.Analysis.Explore` | src/hl/regex.c:2567-2797 | The worklist loop empties: positions only move forward, a backward jump being left at the loop's exit |
| `RegexFastmap.Analysis.Fork` | src/hl/regex.c:2730-2754 | The other way waits on the stack, or marks the empty match when it is the end of the pattern |
| `RegexFastmap.Analysis.Jump` | src/hl/regex.c:2698-2728 | A jump back to what looks like a loop head, on_failure_jump or succeed_n, is followed to the loop's exit, a duplicate of it on the stack dropped |
| `RegexFastmap.Analysis.MarkSet` | src/hl/regex.c:2607-2622 | Exactly the characters the set matches are added, those past a short map included for a negated set |
| `RegexFastmap.JumpCovers` | src/hl/regex.c:2698-2728 | Following a jump loses none of the characters still to be found |
| `RegexFastmap.ForkCovers` | src/hl/regex.c:2730-2754 | Forking loses none of the characters still to be found |
| `RegexSearch.ReSearch2` | src/hl/regex.c:2878-2991 | With an accurate fastmap or none, out-of-range starts and clamped ranges included: the first position with a match and nothing missed before it, -1 when every position is missed, or what stops the search before, a stack that overflows or is overrun |
| `RegexSearch.FoundIsNaive` | src/hl/regex.c:2957-2991 | That is what trying every start in turn gives, unless the stack has no room where no match starts |
| `RegexSearch.FirstSearch` | src/hl/regex.c:2915-2991 | Computing the fastmap first and then searching finds the same |
| `RegexSearch.NaiveFinds` | src/hl/regex.c:2957-2991 | The naive search returns the first position with a match, -1 when there is none, or what stops it before |
| `RegexSearch.SkippedFails` | src/hl/regex.c:2923-2951 | No match starts at a position the fastmap passes over |
| `Disciplines.TokenBucket` | src/nqueue.h:114-134 | Over every run of calls at nondecreasing times with frames of 14 to M bytes: approved payload is at most burst + rate*(tn-t0)/1000 + max(0, M-15), whatever the uninitialised time was, and the quota stays in [min(0,15-M), burst] |
| `Disciplines.BucketInvariant` | src/nqueue.h:114-134 | Along a run, what was approved and what is left never exceed the burst and the credit collected |
| `Disciplines.OneCall` | src/nqueue.h:114-134 | One call takes from the capped quota exactly the payload it approves, and keeps the quota within its bounds |
| `Disciplines.CreditBounds` | src/nqueue.h:117-121 | Truncation loses less than one byte of credit a call against the exact rate and never gains any |
| `Decisions.BandDecides` | src/nqueue.h:114-134 | A band of positive rate drops exactly the longest run of late packets at the front; it approves exactly if a packet is left and its credit, the smaller of burst and quota with what has been earned in whole bytes, is positive; and then pays for it without the Ethernet header; without a rate it approves anything and changes nothing |
| `Disciplines.DelayStops` | src/nqueue.h:191-198 | A chain with the delay as coded anywhere in it approves nothing, whatever stands before and after |
| `Disciplines.ApprovedMeansFull` | src/nqueue.h:191-198 | A chain approves an empty queue only if every discipline asked ignores emptiness |
| `Disciplines.MaxDelayHolds` | src/nqueue.h:124-133 | With a positive-rate band with a maximal delay anywhere in the chain, nothing approved has waited longer |
| `Disciplines.MinDelayHolds` | src/nqueue.h:144-146 | Whenever a chain with the delay that is meant sends, the packet the delay approved has waited that long, and it is the packet sent if and only if no later discipline drops in that call; so the delay is a minimum when none of them can, a loss of no more than nothing among those that cannot |
| `Disciplines.MinDelayFailsBeforeLoss` | src/nqueue.h:88-101 | With a random loss after it, a packet younger than the minimal delay is sent |
| `Disciplines.TossedOnce` | src/nqueue.h:94-100 | One call of random loss tosses for no packet twice, and whatever stays at the front has been tossed for |
| `Decisions.LossDecides` | src/nqueue.h:94-100 | Random loss drops exactly the packets at the front that are new there and whose draw, one a toss, is below the loss; it approves exactly if one is left, and remembers that one |
| `Disciplines.SentWasTossed` | src/nqueue.h:94-100 | In a call that sends, the packet sent has been tossed for if and only if no discipline after the random loss drops anything in that call |
| `Disciplines.SentUntossed` | src/nqueue.h:94-100 | With an overdue-dropping band after it, a packet nobody tossed for is sent |
| `Disciplines.SentAsApproved` | src/nqueue.h:191-198 | In a call that sends, each discipline approved, and the packet it approved is the one sent if and only if no later discipline drops anything in that call |
| `Disciplines.Overdue` | src/nqueue.h:124-127 | Dropping stops: the first packet kept has not waited longer than the maximal delay |
| `Disciplines.AskFromDrops` | src/nqueue.h:191-198 | A chain removes packets from the front only, and they are the ones counted as dropped |
| `Decisions.ChainDecides` | src/nqueue.h:190-198 | A chain asks its disciplines in turn, each once and on what those before left, up to the first that does not approve, and approves exactly if all do |
| `Queues.BrokenIff` | src/nqueue.h:190-198 | packet_out pops an empty queue, or reads its front, exactly when the queue is empty, has disciplines, and none before a delay or the end of the chain checks for a packet |
| `Decisions.SendsWhen` | src/nqueue.h:190-198 | packet_out sends exactly if there are disciplines, all approve and a packet is left: the first one left goes out, those dropped before it are dropped, and the rest waits |
| `Queues.DelayNeverSends` | src/nqueue.h:144-146 | A queue with the delay as coded in its chain never sends, at any time and with any luck |
| `DispatcherRuns.DelayHoldsAll` | src/nqueue.h:228-241 | Over every run: once that delay is in a chain the queue sends nothing more, whatever is pushed, served and configured, until it is erased or another discipline put in its place |
| `DispatcherRuns.SentInTime` | src/nqueue.h:124-133 | In every state reached, nothing sent past a positive-rate band with a maximal delay has waited longer |
| `DispatcherRuns.SentTossed` | src/nqueue.h:94-100 | In every state reached, what a queue with a random loss sends has been tossed for, and once, if and only if nothing after the loss drops in that call |
| `Queues.PushedOk` | src/nqueue.h:33-41 | Pushing keeps sizes, order, accounting and tossing right; the newest packet joins at the end or is lost over the limit |
| `Queues.PacketOutOk` | src/nqueue.h:190-198 | Serving keeps all of that, drops on the way included |
| `Queues.PacketOutAccount` | src/nqueue.h:190-198 | Serving neither loses nor makes up a packet: each is sent, dropped or still waiting |
| `Queues.PushedAccount` | src/nqueue.h:33-41 | Pushing adds exactly the one packet to what the queue accounts for |
| `Queues.SubseqDrop` | src/nqueue.h:45-57 | Dropping from the middle keeps a subsequence of what was accepted |
| `Dispatcher.EveryPacketOnce` | src/nqueue.h:204-292 | Over all interleavings of pushes, service rounds and commands, rounds whose time was read before a later push included, each pushed packet is in exactly one place: forwarded, or sent, dropped, lost or waiting in exactly one queue, erased ones included |
| `Dispatcher.QueuesInOrder` | src/nqueue.h:228-241 | Each queue, erased or not, sends a subsequence of its accepted packets in uid order; its byte total is the sum of what waits and never exceeds the largest limit so far by more than one packet |
| `Dispatcher.NeverTossedTwice` | src/nqueue.h:88-101 | Over whole runs no random loss tosses for a packet twice |
| `Dispatcher.RunOk` | src/nqueue.h:204-292 | The invariant of all queues holds after every interleaving of commands |
| `Dispatcher.StepOk` | src/nqueue.h:216-284 | Every locked section keeps the invariant |
| `Dispatcher.StepConserves` | src/nqueue.h:216-284 | Every locked section, erasing a queue included, keeps every packet accounted for |
| `Dispatcher.RoundServesAll` | src/nqueue.h:235-241 | A service round gives every queue one packet_out, with its own draws and in the order of the keys, and touches nothing else |
| `Dispatcher.FirstTakes` | src/nqueue.h:273-284 | A packet pushed gets the next number and goes to the first queue in key order that accepts it, all others staying as they are, and straight on exactly if none does |
| `Dispatcher.LetInWhen` | src/nqueue.h:33-41 | In every state reached the packet is let in exactly if the sizes of the packets waiting add up to the limit at most |
| `Dispatcher.SettingTakes` | src/nqueue.h:216-227 | A setting takes effect on the queue of its key, a new one with a limit of 10240 bytes if there was none, and on no other queue |
| `Dispatcher.ClearTakes` | src/nqueue.h:220-223 | Clearing takes away the queue of its key and no other |
| `Dispatcher.QueueDispatcher.PushPacket` | src/nqueue.h:273-284 | The packet is sent straight on exactly when no filter accepts it; otherwise the first queue that accepts it has taken it, within its limit, and all other queues are as they were |
| `Dispatcher.QueueDispatcher.ServiceRound` | src/nqueue.h:235-241 | Afterwards every queue, each at its place, is what packet_out with its own draws makes of it, and nothing else has changed |
| `Dispatcher.QueueDispatcher.ClearQueue` | src/nqueue.h:220-223 | The queue of the key goes with its waiting packets, and exactly the other queues stay |
| `Dispatcher.QueueDispatcher.Configure` | src/nqueue.h:216-227 | A setting has taken effect on the queue of its key, made new with the default limit when the key is unknown, and on no other |
| `Dispatcher.Place` | src/nqueue.h:213-214 | Keys stay in order: all keys before the place are smaller, the one there is not |
| `QueueObjects.RawQueue.Push` | src/nqueue.h:33-41 | In place: the packet joins the end and the total grows, or it is lost once the total is over the limit |
| `QueueObjects.RawQueue.Pop` | src/nqueue.h:51-57 | In place: the front leaves, is sent, and its size leaves the total |
| `QueueObjects.RawQueue.DropFront` | src/nqueue.h:45-49 | In place: the front leaves and counts as lost |
| `QueueObjects.BandQdisc.CanPop` | src/nqueue.h:114-134 | In place: exactly the late packets at the front are dropped, and one left is approved exactly if there is credit, and paid for |
| `QueueObjects.DelayQdisc.CanPop` | src/nqueue.h:144-146 | The answer for every queue, as coded |
| `QueueObjects.RlossQdisc.CanPop` | src/nqueue.h:94-100 | In place: exactly the packets at the front that lose their toss are dropped, and one left is approved and remembered |
| `QueueObjects.RlossQdisc.TossAll` | src/nqueue.h:95-98 | The tossing loop ends, having tossed once for each new front until one stays |
| `QueueObjects.Nqueue.PushBackQdisc` | src/nqueue.h:169-172 | In place: the discipline joins the end of the chain, and the packets and the other disciplines stay as they are |
| `QueueObjects.Nqueue.PacketIn` | src/nqueue.h:183-189 | The packet is pushed exactly when the filter accepts it |
| `QueueObjects.Nqueue.PacketOut` | src/nqueue.h:190-198 | Asking mutable disciplines in turn and popping gives the specified new queue and outcome |
| `Checksum.IpCsum` | src/protocols/ip.h:45-54 | For every buffer whose word sum fits 32 bits the result is the checksum of RFC 1071: the complement of the one's-complement sum |
| `Checksum.TwoFolds` | src/protocols/ip.h:51-53 | Two folds reach the one's-complement sum for every 32-bit register value |
| `Checksum.SumIsCanonical` | src/protocols/ip.h:49-50 | Adding words with end-around carry gives the canonical form of their plain sum modulo 65535 |
| `Checksum.RightIffItFits` | src/protocols/ip.h:45-54 | The result is the RFC 1071 checksum if and only if the word sum fits the 32-bit register |
| `Checksum.RightIffEven` | src/protocols/ip.h:46-50 | It agrees with the RFC, which pads odd buffers, if and only if the length is even or the last byte is zero |
| `Checksum.StoredVerifies` | src/dhcp_client.h:248-249 | Storing the checksum in an aligned word that was zero makes recomputation give 0 |
| `Checksum.RfcExample` | src/protocols/ip.h:45-54 | The example of section 3 of RFC 1071 gives the sum the RFC gives |
| `Checksum.ByteOrderIndependent` | src/dhcp_client.h:244-249 | Swapping the bytes of every word swaps the bytes of the result, so it can be stored without htons |
| `Checksum.UdpCsum` | src/protocols/udp.h:17-44 | The result is the RFC 1071 checksum of the RFC 768 pseudo-header followed by the datagram: the complement of the one's-complement sum of the words of both addresses, the protocol number 17, the length in network order, and the datagram |
| `Checksum.PseudoSum` | src/protocols/udp.h:18-27 | The words of the pseudo-header add up to those of the addresses, of protocol 17 behind a zero byte, and of the length in network order |
| `Checksum.SumOfTwo` | src/protocols/udp.h:33-39 | Summing the pseudo-header and going on into the datagram sums both together |
| `Dhcp.WalkOptions` | src/dhcp_client.h:56-71 | The index loop ends and finds what the walk defined on positions finds |
| `Dhcp.WalkVisitsAll` | src/dhcp_client.h:57-71 | Walking any encoded pad-free list ended by 255 visits exactly its options in order, later ones winning, up to position 300 |
| `Dhcp.WalkInvertsOptions` | src/dhcp_client.h:209-239 | Walking what send_packet writes yields the message type and, for requests and releases, the server |
| `Dhcp.WriteOptions` | src/dhcp_client.h:209-239 | The bytes written are the encoding of the message's option list, 4 bytes for a discover and 16 otherwise |
| `Dhcp.IpVerifies` | src/dhcp_client.h:247-249 | The header of every frame sent checks to zero |
| `Dhcp.UdpVerifies` | src/dhcp_client.h:244-245 | So does the datagram with its pseudo-header |
| `Dhcp.FrameVerifies` | src/dhcp_client.h:173-256 | In every frame sent both checksums verify at the offsets where a receiver finds them, the UDP one over the frame's own addresses, protocol 17, its own length field and the datagram |
| `Dhcp.FrameHeaders` | src/dhcp_client.h:176-200 | Every frame holds broadcast and own hardware address, the IPv4 type, a plain IP header with its length for UDP from no address to all, ports 68 and 67, and the UDP length |
| `Dhcp.FrameMessage` | src/dhcp_client.h:202-239 | Then a request with the client's transaction and hardware address, the magic cookie, nothing else set, and the options byte by byte |
| `Dhcp.BuildFrame` | src/dhcp_client.h:173-256 | The frame built with the two accumulating checksums is the specified frame, of even length |
| `Dhcp.OwnFramesIgnored` | src/dhcp_client.h:48-56 | No client takes a frame that a client sent for a reply |
| `Dhcp.ReplyRead` | src/dhcp_client.h:38-71 | The client finds each field where the layout puts it, whatever the length of the IP header, and takes for replies exactly IPv4 packets with UDP, magic cookie and reply code |
| `Dhcp.ReplyTaken` | src/dhcp_client.h:38-96 | An own-transaction offer leaves its yiaddr, and server and mask from its options, in an unconfigured client, and one request naming them is sent; an acknowledgement configures; anything else changes nothing |
| `Dhcp.OfferTaken` | src/dhcp_client.h:72-80 | For an offer with the usual three options address, server and mask are those the server put there |
| `Dhcp.SendsOwn` | src/dhcp_client.h:98-111 | Of its own accord the client sends a discover, a request for what it holds, and a release only when configured, and is then not configured |
| `Dhcp.ClientRuns` | src/dhcp_client.h:38-111 | Over every run the address and server held are those of the last DHCPREQUEST sent, zero if none, and releases never outnumber own-transaction acknowledgements |
| `Dhcp.ConfiguredWithoutRequest` | src/dhcp_client.h:82-86 | A concrete acknowledgement configures a client that never asked, with address zero |
| `Dhcp.ConfiguredMeansAsked` | src/dhcp_client.h:38-111 | All along a run a configured client has sent a request, if and only if no acknowledgement for its transaction comes before its first request |
| `Dhcp.DhcpClient.constructor` | src/dhcp_client.h:32-36 | A new client is unconfigured, holds zero addresses and has sent nothing |
| `Dhcp.DhcpClient.SendPacket` | src/dhcp_client.h:173-256 | One message carrying the held address and server joins what was sent |
| `Dhcp.DhcpClient.SendDiscover` | src/dhcp_client.h:98-101 | A discover is sent and the client is no longer configured |
| `Dhcp.DhcpClient.SendRequest` | src/dhcp_client.h:103-106 | A request for the held address is sent and the client is no longer configured |
| `Dhcp.DhcpClient.SendRelease` | src/dhcp_client.h:108-111 | A release is sent only by a configured client, which is then no longer configured |
| `Dhcp.DhcpClient.Dispatch` | src/dhcp_client.h:38-96 | Whatever fields a packet is laid out from, the client does with it what is said of those fields, and returns true exactly for genuine replies of another transaction |
| `Counter.CounterCounts` | src/statistics.h:13-23 | For positive nondecreasing times: the time stays aligned to the first call and within a frame of the last, the running sum is that of the current window, the value that of the latest earlier window with a call |
| `Counter.WindowByWindow` | src/statistics.h:13-23 | For positive nondecreasing times: the sums moved out to be shown are those of the windows with a call, in order, the running sum is that of the current window, and together they are all sizes added |
| `Counter.NothingLost` | src/statistics.h:13-23 | Whatever the times, the sums moved out and the running one account for every size added, and the value shown is the last one moved out |
| `Counter.OpensWindow` | src/statistics.h:18-22 | A call a frame or more past the window keeps the counter right: it opens the window it falls in, and the sum of the one before is shown |
| `Counter.TrCounter.AddSize` | src/statistics.h:13-23 | The three fields move as the specified step says |

## Left out

- Dhcp.WalkVisitsAll: pad options and reading past the end option are not covered; the source's walk treats a pad as an option with a length, and 255 is modelled as leaving the loop.
- RegexTerminate.MatcherComplete: stated for loops over one character only and up to -2 or a push past the stack, because the code misses matches or fails to return beyond that (`RegexExamples.GroupRunMisses`, `RegexExamples.LoopOverLoopNeverReturns`, `RegexExamples.WideLoopMatchesNothing`); `RegexOverflow.NoOverflow` gives a bound under which neither occurs unless a push is out of step, sufficient but not necessary.
- RegexEngine.PathsSpellPattern: for code of up to 32767 bytes; longer programs, which the buffer allows, have jumps that do not fit 16 signed bits (`Bytes.NumberRoundTrip`).
- RegexReading.SpelledPatternReads: the spelled grammar has no null characters, no repetition straight after an anchor (`RegexReading.RepeatedAnchor` says what that does), no unmatched `)`, no `{`, no character classes, and in a bracket no hyphen between a range and another member; the parser and compiler models cover unmatched `)` and such hyphens.
- RegexRegisters.RegistersInStep: one way only, for tame programs. Which texts take a program that is not tame to a push with its registers out of step depends on what its alternatives match; `RegexRegisters.AsksWhatItStores` gives the exact condition at the push, `RegexRegisters.OverrunStrays` and `RegexOverflow.NoOverflow` what it means for runs of any program and of any simple one, and `RegexStrays` two programs that meet it. That no choice begins with a group is not enough: y(zq) or y()(x(ab) or x(a))d* starts no alternative with a group.
- FailStack.Stack.Push: stops before the first item that would be written past the array, where the code goes on.
- RegexMatcher.ReMatch2: of register_info_type the two flags that steer control; starts and ends of groups are stored, pushed and popped, but the older ones kept for empty iterations are not, and reading groups above 0 out, which can be stale after backtracking, is not modelled.
- RegexMatcher.Loop: runs for a given number of steps, because the code's own loop need not end for all patterns; `RegexTerminate.Enough` steps suffice for simple ones.
- RegexFastmap.CompileFastmap: for the freshly compiled program, one byte beyond it given as a parameter where the source may look there; clearing the newline entry does not arise, since `.` matches newlines in this syntax.
- RegexSearch.ReSearch2: forward searches only; the results at each start are assumed to come within the given steps.
- Dispatcher.QueueDispatcher.Configure: setting a filter carries no contents, and a bad index or discipline name is not modelled; keys are integers in order instead of strings.
- Dispatcher.RunOk: runs go on after packet_out has looked at an empty queue, as if nothing were sent, which C++ leaves undefined; `Queues.BrokenIff` says exactly when that happens.
- Checksum.UdpCsum: the word sum must fit the 32-bit register, as for any datagram of up to 65535 bytes.
- Back references, intervals, word and Emacs operators, character classes, translate tables, case folding, other syntaxes, newline anchors, the `.*` followed by newline shortcut, and two-string matching: the model reports the constructs it does not cover as unsupported.
- Allocation failure and moving of reallocated pointers.
- Bytes beyond the program read as 0, except in the fastmap as said above.
- Overflow of `int` times, rates and uids.
- Packet filters: a set of queues whose filter accepts stands for them.
- Threads, sockets, pcap, timers, the registry, the console, printed statistics and the destructors of disciplines.
- TCP, ARP, the router, the UDP client and the parameter reader.
- Machine words are little-endian and `unsigned long` has 32 bits, as on the platform the sources target.
