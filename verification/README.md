# tolunnet in Dafny

A model of the parts of tolunnet (a TCP/IP stack for AmigaOS) whose correctness
is hardest to see from the code, with proofs for every input, every run and
every stopping point.

* **Installer and undo.** `scripts/gen_installer.py` generates an Installer
  script and the AmigaDOS script `S:tolunnet-undo` that must reverse it;
  `scripts/undo_sim.py` gives both languages a meaning over a dictionary file
  system; `scripts/installer_lint.py` checks the undo. The model has the two
  languages with their interpreters (`Dos`, `Installer`), the generator
  (`Undo`, `InstallScript`, `Printer`), the lint (`Lint`, `LintExact`,
  `LintKeys`, `LintFiles`, `LintMisses`), the text of S:User-Startup through
  all of it (`StartupFile`, `StartupUndo`, `StartupBlock`), and the main theorem `History.InstallsThenUndoRestore`: after any
  number of completed installs of any package versions, each with its own list
  of commands, and one more stopped at any write, the undo gives a command its
  original content or absence back if and only if the undo script on the disk
  names it or its live file is the original anyway. Installs and undos compose:
  after any number of cycles the system is without a trace and every key apart
  from the footprint is as it was (`Cycles.CyclesRestore`).
* **TFTP.** Client and peer of both directions over a channel that loses,
  duplicates, reorders and injects, with 16-bit block numbers that wrap
  (`TftpGet`, `TftpGetNet`, `TftpPut`, `TftpPutNet`), and from which states a
  transfer can still be completed (`TftpGetRecovery`, `TftpPutRecovery`).
* **Stream code.** The masked passphrase editor (`Masked`), the FTP reply reader
  (`Ftp`), the Telnet filter, encoder and option negotiation (`Telnet`).
* **Codecs and arithmetic.** DNS names, replies and whole lookups (`DnsName`,
  `DnsQuad`, `DnsReply`, `DnsAnswers`, `DnsLookup`), LhA archives and their CRC
  (`Lha`, `LhaCrc`), the civil date
  (`Civil`), the integer square root (`Isqrt`).

`dafny verify dfyconfig.toml` checks the project.

## How to read it

Code that changes state step by step is a class or a method with loops, proved
equal to a function (`Dos.Machine.Run` to `ExecBlock`, `TftpPut.Client.Put` to
`After`, `Masked.Hook` to `Judge`); the theorems are about those functions.
Everything outside the program is a parameter: packets, clock readings, Ctrl-C,
what a write manages to write, the checksum function, the write-protected
paths, and after how many writes an install is stopped.

Main results, by component:

| component | result |
|---|---|
| undo after installs | `History.InstallsThenUndoRestore`, `Versions.GrowingVersionsRestore`, `History.ProtectedUndoLosesNothing` |
| installs complete | `InstallCompletes.InstallCompletes`, `HistoryCompletes.HistoryCompletes` |
| cycles and retries | `Cycles.CyclesRestore`, `Retry.RetryOutcome`, `Retry.RetryRestores` |
| library parking | `Versions.LibraryRoundTrip` |
| User-Startup | `StartupFile.InstallStartup`, `StartupFile.TextKept`, `StartupUndo.HistoryStartup`, `StartupBlock.MergeTwice` |
| scripts | `DosGrammar.ParseIsGrammar`, `Printer.PrintParse`, `UndoReports.UndoReports` |
| lint | `LintExact.LintIsExact`, `LintExact.LeftOutReported`, `Lint.LintSound`, `LintScripts.GeneratedSafe`, `LintKeys.CommandWatch`, `LintKeys.BackupWatch`, `LintKeys.StartupWatch`, `LintKeys.LibraryWatch`, `LintFiles.FilesSafe`, `LintClean.GeneratorPassesLint` |
| TFTP | `TftpGetNet.GetSafety`, `TftpPutNet.PutSafety`, `TftpGetRecovery.GetRecovers`, `TftpPutRecovery.PutRecovers`, `TftpPut.PutBlockBound`, `TftpPut.NoEarlyResend`, `TftpPutNet.LostAckEndsPut` |
| editor, FTP, Telnet | `Masked.MaskedEditing`, `Masked.NeverOutOfStep`, `Masked.AlwaysMasked`, `Ftp.AnyStream`, `Ftp.KthReply`, `Telnet.FilterMeaning`, `Telnet.AnswersByTable`, `Telnet.ChunkingIrrelevant`, `Telnet.NvtRoundTrip` |
| DNS | `DnsAnswers.AnswerIsFirst`, `DnsReply.HostIsExpansion`, `DnsReply.NameIsExpansion`, `DnsLookup.LookupName`, `DnsLookup.LookupAddress` |
| LhA, date, root | `Lha.RoundTrip`, `LhaCrc.CrcIsRemainder`, `Civil.DateIsStepped`, `Civil.DateOfDayNumber`, `Isqrt.Root` |

Where the code and what is said about it differ:

* The undo does not give back a command that an earlier version installed and
  the last one no longer names: it stays tolunnet's, with an original only in
  the backup directory (`Versions.DroppedCommandStays`; a history of two
  completed installs at which this happens is `FailingHistories.DroppedStay`).
  Where versions only add commands, all of them come back
  (`Versions.GrowingVersionsRestore`).
* A stopped install is not harmless for the next one. Stopped after its undo
  script and before `new/` exists, it leaves the legacy flag on: the next install
  takes the system's own commands for an older tolunnet's, and after the undo
  they are nowhere (`Stopped.EarlyStopLoses`). Stopped after the copies, it leaves
  tolunnet's files unmarked: the next install saves them as the system's, and the
  undo gives them back (`Stopped.LateStopKeeps`). What comes back from any state
  is `Retry.RetryOutcome`, the exact condition on the state in which the second
  install starts is in `Retry.RetryRestores`, and both failures on one system are
  in `FailingHistories.StoppedThenInstalled`.
* A completed install has the user's S:User-Startup in the backup, unless a
  backup was there that had to stay: one beside an undo script, or a stale one
  that could not be set aside. In the second case the install goes on, and the
  user's text is nowhere (`StartupFile.TextKept`, an exact condition).
* Merging the boot lines twice is merging them once if and only if the file did
  not come with a begin mark and no end mark; then the second merge cuts out
  everything behind that mark (`StartupBlock.MergeTwice`).
* The lint compares spellings. A command is guarded exactly when spelled
  `SYS:C/...`, a backup exactly when spelled from its backup directory,
  User-Startup only as `S:User-Startup` and the stack library only as
  `LIBS:bsdsocket.library`, each up to letter case (the four watches of
  `LintKeys`, over all scripts that the whole lint accepts). So the generated
  script with one line more is accepted and deletes a command through the `C:`
  assign (`LintMisses.LintMissesAssign`), or copies over `SYS:S/User-Startup`
  (`LintMisses.LintMissesStartup`) or `SYS:Libs/bsdsocket.library`
  (`LintMisses.LintMissesLibrary`).
* The lint watches Delete, but a watched file also goes by a Rename of it, by a
  Copy over it, or by a Copy over the directory above it followed by a Delete of
  that (`LintMisses.RenameMisses`, `LintMisses.CopyMisses`,
  `LintMisses.DirectoryMisses`, each an accepted script); without those, a file
  that is gone had its marker or its Copy (`LintFiles.FilesSafe`).
* The lint reads one script, and demands that this one executes the wizard's
  `S:tolunnet-undo-stacks`. Its guarantees hold where no executed key is a file
  and none is written (`Lint.Alone`); the wizard's script itself is unchecked
  (`LintMisses.WizardUnchecked`).
* An age bound on the channel is needed for TFTP. For DATA in both directions,
  "less than 65536 blocks behind what the receiver waits for" is the exact one
  (`TftpGetNet.GetBoundIsTight`, `TftpPutNet.PutBoundIsTight`); for the ACKs of a
  PUT it is "less than 65536 blocks behind what the client sends"
  (`TftpPutNet.PutAckBoundIsTight`).
* Encoding console text buffer by buffer is the encoding of the whole text
  unless a CR LF is cut in two; then the CR is doubled (`Telnet.NvtSplit`).
* Install and then undo gives the live stack library back if and only if the
  install left it alone or nothing different was already parked as
  `.pre-tn-newer` (`Versions.LibraryRoundTrip`); otherwise the
  one parked as newer is live and the live one parked (`Versions.NewerLibraryWins`).
* A GET can be completed by packets yet to be sent if and only if the server
  still waits for the block the client needs or has last taken, and one side has
  a repetition left. So a lost last block ends it, and so does a server that a
  repeated request made start over (`TftpGetRecovery.GetRecovers`). A PUT can if
  and only if the receiver waits for the very block in hand
  (`TftpPutRecovery.PutRecovers`).
* The TFTP receiver of the tests repeats no ACK, so a PUT whose request was
  served once cannot succeed when one ACK, that of the request included, is lost
  (`TftpPutNet.LostAckEndsPut`).
* The gadget stays all asterisks if and only if each proposal that the hook lets
  through is, outside the part it covers, all asterisks (`Masked.AlwaysMasked`);
  the hook itself does not look at the rest of an insertion or a deletion.

## Model

| member | source | states |
|---|---|---|
| Text.SplitRender | scripts/undo_sim.py:111-114 | splitting a line at whitespace gives back the words it was laid out from, for every indentation |
| Text.SplitJoinLines | scripts/gen_installer.py:221-231 | a text written as lines with line ends splits into those lines and an empty rest |
| Files.NormSys | scripts/undo_sim.py:62-69 | a path spelled from SYS: is normalised to its lower-case spelling |
| Files.NormAssigns | scripts/undo_sim.py:58-69 | exactly the five assigns at the start of a path are replaced by their directories |
| Files.WritableIs | scripts/undo_sim.py:98-103 | a path can be written if and only if it is not protected and no name in it is longer than 30 characters |
| Dos.ParseScript | scripts/undo_sim.py:155-177 | the loop with its explicit stack returns the nested block of the lines, or reports that they are not well nested |
| DosGrammar.ParseIsGrammar | scripts/undo_sim.py:155-177 | the parser accepts exactly the sentences of a grammar of closed Ifs, each with its block; unclosed Ifs, stray Elses and EndIfs and bad lines are refused |
| Dos.Machine.Refuse | scripts/undo_sim.py:187-191 | a failure sets code 20, changes no file and aborts exactly at a fail level of at most 20 |
| Dos.Machine.DoCopy | scripts/undo_sim.py:211-216 | copies exactly a plain file to a writable target and nothing else, or fails with code 20 and changes nothing |
| Dos.Machine.DoDelete | scripts/undo_sim.py:217-229 | removes exactly the target and what is below it, if and only if all that is writable and, without ALL, nothing is below a directory; otherwise fails with code 20 and changes nothing |
| Dos.Machine.DoRename | scripts/undo_sim.py:230-236 | moves a file with its content if and only if both names can be written and the new one is free; otherwise fails with code 20 and changes nothing |
| Dos.Machine.Step | scripts/undo_sim.py:198-245 | one item in place does what the functional semantics says, including Execute up to depth 4 |
| Dos.Machine.Run | scripts/undo_sim.py:193-204 | the loop over a block ends in the state of the functional semantics, abort and fail level included |
| Dos.Machine.RunScript | scripts/undo_sim.py:180-185 | a whole script runs with its own fresh return code and fail level |
| Dos.ExecAppend | scripts/undo_sim.py:193-196 | running two blocks in turn is running their concatenation, also when the first aborts |
| Printer.ParsePrinted | scripts/undo_sim.py:155-177 | the parser reads a laid-out block as that block, whatever lines and open Ifs surround it |
| Printer.PrintParse | scripts/undo_sim.py:109-177 | every block, laid out as lines, parses back to itself |
| Undo.GenerateUndoLines | scripts/gen_installer.py:97-218 | the loop over the names produces the lines of the undo script |
| Undo.UndoParses | scripts/gen_installer.py:97-218 | for every valid list of names the generated script is well nested and parses to the intended tree |
| Undo.UndoOneLine | scripts/gen_installer.py:221-231 | no generated line holds a line break, so writing and splitting the script keeps its lines |
| Restore.LeavesExec | scripts/undo_sim.py:193-246 | a block whose commands name nothing at or above a key leaves that key and all below it as it was |
| Restore.SteadyExec | scripts/undo_sim.py:187-191 | with a fail level above 20 no failing command aborts a script |
| Restore.RestoreExec | scripts/gen_installer.py:121-128 | a backup is removed only after its Copy reported no error, for every write protection |
| Restore.DropExec | scripts/gen_installer.py:131-133 | If EXISTS and Delete leave the target gone or untouched |
| Restore.NameUndo | scripts/gen_installer.py:119-135 | undoing one command gives its original content or absence back, and under any write protection keeps the original live or in the backup |
| UndoRun.UndoIsStages | scripts/gen_installer.py:107-217 | the written script runs as its stages in turn |
| UndoRun.UndoCompletes | scripts/gen_installer.py:109-117 | the undo never aborts, on any file system and whatever is write-protected or the wizard left, and runs to its end if and only if the wizard's script does not crash the parser |
| UndoRun.UndoRestoresName | scripts/gen_installer.py:119-135 | the whole undo restores each command file from any safe state |
| UndoSafety.DropKeepsFull | scripts/gen_installer.py:203-211 | a backup directory that still holds something is not removed |
| UndoSafety.UndoKeepsOriginal | scripts/gen_installer.py:101-106 | for every set of write-protected paths a saved original is live or still in the backup after the undo |
| UndoLibs.UndoRestoresUg | scripts/gen_installer.py:136-147 | the undo restores usergroup.library if the system had one |
| UndoLibs.UndoLibrary | scripts/gen_installer.py:177-194 | the undo acts on the live and the two parked library names as taking the newest parked one back, or leaves them alone under write protection |
| UndoReports.UndoRemovesOwn | scripts/gen_installer.py:148-156 | the undo removes the preference tools, their icons and the configuration, each unless it is write-protected |
| UndoReports.UndoReports | scripts/gen_installer.py:119-135 | under every write protection a saved command is live again after the undo, or the undo has said that it is not |
| Installer.PretendExec | scripts/undo_sim.py:400-471 | in PRETEND mode no statement changes a file |
| Installer.PretendRun | scripts/undo_sim.py:329-334 | in PRETEND mode no script changes a file |
| Installer.Interpreter.WriteEntry | scripts/undo_sim.py:406-412 | writes the entry under its path, or stops the install and changes nothing |
| Installer.Interpreter.Copy | scripts/undo_sim.py:414-434 | copies a file of the system or the package, with its icon where asked, and stops without a source |
| Installer.Interpreter.TryRename | scripts/undo_sim.py:463-471 | moves the entry to a free name, or reports failure or stops and changes nothing |
| Installer.Interpreter.Execute | scripts/undo_sim.py:337-488 | one statement in place does what the functional semantics says |
| Installer.Interpreter.RunScript | scripts/undo_sim.py:329-334 | the loop over the top-level statements ends in the state of the functional semantics |
| InstallScript.GenerateNameSections | scripts/gen_installer.py:264-309 | the loops over the names produce the PREPARE and FINISH statements of the command files |
| InstallScript.SparesRun | scripts/undo_sim.py:400-471 | a script whose writes stay away from a key leaves that key and all below it as it was |
| InstallSteps.WriteOutcome | scripts/undo_sim.py:406-412 | a write is done completely or stops the install with nothing changed |
| InstallSteps.DecisionExec | scripts/gen_installer.py:243-261 | the decision comes out as back up, mark as new or nothing, by what is live, backed up and marked, and by the legacy flag |
| InstallSteps.PrepareNameExec | scripts/gen_installer.py:291-309 | PREPARE of one command writes at most its backup or its new/ marker, and has written it if the install goes on |
| InstallSteps.MarkExec | scripts/gen_installer.py:414-423 | FINISH writes the checksum marker of the installed content |
| InstallNames.StartCode | scripts/gen_installer.py:243-261 | a reinstall never backs up tolunnet's own file, and a first install always backs up an original |
| InstallRun.LegacyFlag | scripts/gen_installer.py:272-280 | when the commands are prepared the legacy flag is on if and only if there was an undo script and no new/ directory |
| InstallRun.InstallName | scripts/gen_installer.py:264-423 | an install, stopped at any write or completed, leaves each command file in a state the undo knows |
| InstallUg.InstallUgrp | scripts/gen_installer.py:310-323 | the same for usergroup.library |
| InstallLib.PrepareLibExec | scripts/gen_installer.py:324-372 | the library section ends with the library parked, or stops with it parked or untouched |
| InstallLib.InstallLibrary | scripts/gen_installer.py:324-372 | the rest of the install leaves the three library names alone |
| StartupFile.SectionExec | scripts/gen_installer.py:373-411 | the section on S:User-Startup: what its text, its backup and an older backup are wherever it stops and when it goes on, under every write protection |
| StartupFile.InstallStartup | scripts/gen_installer.py:373-435 | the same for a whole install: stopped it has left the user's text live, completed it has merged the boot lines into exactly that text |
| StartupFile.TextKept | scripts/gen_installer.py:373-411 | the user's text is live after every install that stops, and in the backup after a completed one if and only if no other backup had to stay there |
| StartupUndo.UndoStartup | scripts/gen_installer.py:157-176 | the undo leaves a live S:User-Startup as it is and sets its backup aside, or puts the backup in its place when it is gone, for every write protection |
| StartupUndo.HistoryStartup | scripts/gen_installer.py:97-435 | after completed installs, one stopped anywhere and the undo, the live file has the boot lines as often as an install completed, the text from before is saved, and with nothing protected no backup is left behind |
| StartupBlock.MergeTwice | scripts/undo_sim.py:473-488 | merging the boot lines once more changes nothing if and only if the file did not come with a begin mark and no end mark |
| StartupBlock.MergeKeeps | scripts/undo_sim.py:479-484 | only what stands between the first begin mark and its end mark is replaced |
| StartupBlock.BootedOnce | scripts/undo_sim.py:473-488 | however many installs, the boot lines are in the file once, unless it came with a begin mark and no end mark |
| InstallTools.InstallPutsTools | scripts/undo_sim.py:414-434 | a completed install has put the package's usergroup.library, preference tools and icons on the system |
| InstallTools.BadBackupStops | scripts/gen_installer.py:291-309 | if a saved command differs in size from the live one for whatever reason, the install aborts there with nothing replaced |
| InstallTools.BadUgBackupStops | scripts/gen_installer.py:310-323 | the same for usergroup.library |
| InstallTools.BadStartupBackupStops | scripts/gen_installer.py:403-410 | the same for S:User-Startup |
| InstallDirs.UndoFirst | scripts/gen_installer.py:264-281 | an install has changed nothing at all, or the undo script is on the disk |
| InstallDirs.StacksStayAbsent | scripts/gen_installer.py:264-411 | the install never creates the wizard's own undo script |
| InstallDirs.NewDirThere | scripts/gen_installer.py:286-290 | a completed install leaves the new/ directory that tells it from an old one |
| InstallOthers.InstallLeavesUnnamed | scripts/gen_installer.py:264-423 | an install that does not name a command, stopped anywhere or completed, leaves it fresh or installed as it was |
| UndoOthers.UndoLeavesOther | scripts/gen_installer.py:119-135 | a command the undo's list does not name keeps its live file and its backup, whatever is write-protected |
| UndoOthers.UndoKeepsUg | scripts/gen_installer.py:136-147 | for every set of write-protected paths an original usergroup.library is live or still in the backup after the undo |
| History.InstallOne | scripts/gen_installer.py:264-423 | one command of any version through one install of another: safe wherever it stops, ready for the next install when it completes |
| History.InstallStep | scripts/gen_installer.py:264-435 | one install from a pristine or installed system leaves everything safe when stopped and installed when completed, and has changed nothing or written its own undo script |
| History.HistoryStartable | scripts/gen_installer.py:264-435 | after any number of completed installs of any versions the next one can start |
| History.HistorySafe | scripts/gen_installer.py:264-435 | after completed installs of any versions and one stopped anywhere, everything is in a state the undo knows, and the undo script is that of the last install that changed anything |
| History.UndoOne | scripts/gen_installer.py:97-218 | the undo of a list restores a command it names, leaves one it does not name, and loses no original under any write protection |
| History.InstallsThenUndoRestore | scripts/gen_installer.py:97-435 | after such a history the undo gives a command of any version its original content or absence if and only if the last written undo names it or its live file is the original already; usergroup.library and the stack library come back |
| History.ProtectedUndoLosesNothing | scripts/gen_installer.py:101-106 | for every set of write-protected paths the undo does not abort, and no original command, no original usergroup.library and no library content is lost |
| Versions.UntouchedUntilNamed | scripts/gen_installer.py:264-423 | as long as no version names a command its live file is the original |
| Versions.GrowingVersionsRestore | scripts/gen_installer.py:97-435 | where versions only add commands, the undo restores every command of every version |
| Versions.InstallPuts | scripts/undo_sim.py:414-434 | a completed install leaves the package's file under each name it copied |
| Versions.UndoLeavesDropped | scripts/gen_installer.py:119-135 | a command that the undo script on the disk does not name keeps its live file |
| Versions.DroppedCommandStays | scripts/gen_installer.py:97-135 | a command that the next version no longer names stays the package's file after the undo, and an original stays in the backup |
| FailingHistories.DroppedStay | scripts/gen_installer.py:97-135 | the property fails here: [ping, Ftp, foo] and then [ping] are installed completely, and after the undo Ftp and foo are tolunnet's and only ping is as it was |
| Retry.PreparedKeeps | scripts/gen_installer.py:264-309 | from any state of the files, an install that gets through PREPARE leaves exactly the backup and marker that live file, backup, markers and legacy flag call for |
| Retry.RetryOutcome | scripts/gen_installer.py:243-261 | a completed install from any state and then the undo: exactly what each command gets |
| Retry.RetryRestores | scripts/gen_installer.py:243-261 | from a state that a stopped install leaves, a command comes back if and only if it has a backup, or no live file, or one known and marked, or one unknown that is marked as new exactly if the legacy flag is on |
| Stopped.FewerRun | scripts/undo_sim.py:400-412 | an install that goes on does the same with just the writes it needs, so it can be stopped after any phase |
| Stopped.EarlyStopLoses | scripts/gen_installer.py:264-281 | the property fails here: stopped after its first write, then completed, then undone, an original command is neither live nor saved |
| Stopped.LateStopKeeps | scripts/gen_installer.py:243-261 | the property fails here: stopped after the copies, then completed, then undone, a command the system never had is the package's |
| FailingHistories.StoppedThenInstalled | scripts/gen_installer.py:243-281 | both failures on one system with [ping, Ftp, foo] |
| Footprint.InstallWithin | scripts/gen_installer.py:264-435 | an install, stopped anywhere or completed, changes no key outside its footprint |
| UndoBounds.UndoWithin | scripts/gen_installer.py:97-218 | the undo changes no key but those it writes and what lies at or below those it removes, whatever is write-protected |
| UndoClears.UndoClears | scripts/gen_installer.py:195-217 | with nothing protected nothing at or below the backup directory is left |
| Cycles.CycleRestores | scripts/gen_installer.py:97-435 | installs of growing versions and the undo: no trace of tolunnet, every command and the stack library as they were, and so every key apart from the footprint |
| Cycles.CyclesRestore | scripts/gen_installer.py:97-435 | the same for any number of such cycles |
| InstallGoes.DirsPhase | scripts/gen_installer.py:284-290 | PREPARE makes every directory that no file stands in the way of |
| InstallGoes.NamesGo | scripts/gen_installer.py:291-309 | the sections of all commands run to their end with nothing protected |
| InstallGoes.LibGoes | scripts/gen_installer.py:324-372 | the library section goes on unless it refuses the shelf |
| InstallCompletes.StartupGoes | scripts/gen_installer.py:373-411 | the section on S:User-Startup runs to its end, with or without stale backups |
| InstallCompletes.InstallCompletes | scripts/gen_installer.py:264-435 | with a full package, enough writes and nothing protected, an install completes on every system that has its directories, the legacy flag on or off, and leaves its own |
| HistoryCompletes.HostsStay | scripts/gen_installer.py:264-435 | a completed install leaves a system on which an install of any version can run |
| HistoryCompletes.HistoryCompletes | scripts/gen_installer.py:264-435 | from a system without traces, all installs of an undisturbed history of full packages complete |
| Versions.LibraryRoundTrip | scripts/gen_installer.py:177-194 | for every shelf, stopping point and write protection: install and undo keep the contents, never replace a live library, and the live content comes back if and only if the install left it alone or nothing different was parked as newer |
| Versions.NewerLibraryWins | scripts/gen_installer.py:177-194 | with A live and B parked as newer, a completed install and the undo leave B live and A parked |
| Lint.WalkedSafe | scripts/installer_lint.py:522-571 | in every run of a tree without findings of the walk each Delete, Copy and Rename is preceded by what the walk demands of it, where no executed key is a file or gets written |
| Lint.LintSound | scripts/installer_lint.py:492-595 | the same for the lines of every script that the whole lint accepts |
| LintExact.LintIsExact | scripts/installer_lint.py:492-595 | the lint has no finding on a script if and only if it meets each rule: lines, start, every item at every depth with the Ifs around it, a Copy back for each command and usergroup.library, and the startup backup taken away |
| LintExact.ReportedIs | scripts/installer_lint.py:582-586 | a command is reported if and only if it is asked for and no Copy at any depth brings it back |
| LintExact.LeftOutReported | scripts/installer_lint.py:582-586 | the lint of a script generated for another list reports exactly the commands that list does not have |
| Lint.DeleteWithoutAll | scripts/undo_sim.py:217-229 | a Delete without ALL removes its target alone |
| LintScripts.GeneratedSafe | scripts/gen_installer.py:97-218 | the generated script, for every list of names, system without the wizard's script and write protection, does at every step only what the lint allows |
| LintScripts.WithPasses | scripts/installer_lint.py:492-595 | the lint accepts the generated script with any more lines that its walk lets through |
| LintScripts.WithRuns | scripts/undo_sim.py:193-246 | such a script runs its added commands and then as the undo alone |
| LintKeys.CommandWatch | scripts/installer_lint.py:545-552 | every accepted script has found the new/ marker before it deletes a command by this path, if and only if the path is spelled from SYS:C/ |
| LintKeys.BackupWatch | scripts/installer_lint.py:530-544 | every accepted script has copied an original before it deletes it by this path, if and only if the path is spelled from its backup directory |
| LintKeys.StartupWatch | scripts/installer_lint.py:553-562 | no accepted script copies over User-Startup by this path or renames to it unless absent, if and only if it is spelled S:User-Startup |
| LintKeys.LibraryWatch | scripts/installer_lint.py:553-568 | no accepted script copies or renames to the stack library by this path unless absent, if and only if it is spelled LIBS:bsdsocket.library |
| LintFiles.FilesSafe | scripts/installer_lint.py:522-571 | a file of SYS:C or a backup directory that is gone or changed after an accepted script had its marker found or was copied, provided no Rename takes it, no Copy lands on it or above it, and no Delete names it in an unwatched spelling |
| LintFiles.RenameKeeps | scripts/undo_sim.py:230-236 | a Rename of another file neither replaces a file nor takes the place of a directory above it |
| LintMisses.LintMissesAssign | scripts/installer_lint.py:545-552 | an accepted script deletes a command through the C: assign, marked or not |
| LintMisses.LintMissesStartup | scripts/installer_lint.py:553-562 | an accepted script replaces a live User-Startup by its SYS: spelling |
| LintMisses.LintMissesLibrary | scripts/installer_lint.py:553-568 | an accepted script replaces a live stack library by its SYS: spelling |
| LintMisses.RenameMisses | scripts/installer_lint.py:553-568 | an accepted script renames a command or a backup away |
| LintMisses.CopyMisses | scripts/installer_lint.py:553-568 | an accepted script copies something else over a command or a backup |
| LintMisses.DirectoryMisses | scripts/installer_lint.py:522-571 | an accepted script copies a file over SYS:C and deletes it with all commands |
| LintMisses.WizardUnchecked | scripts/installer_lint.py:502-521 | the generated script, accepted by the lint, executes a wizard's script that deletes an unmarked command |
| LintClean.TreeWalkClean | scripts/installer_lint.py:522-571 | the walk has no finding on the generated tree, for every list of names |
| LintClean.GeneratorPassesLint | scripts/installer_lint.py:492-595 | the generated script has no finding at all, line lengths, Echo words and coverage included |
| Tftp.DataPacket | src/cmds/tftp.c:315-316 | a DATA packet carries its 16-bit block number and payload where the readers look for them |
| Tftp.AckPacket | src/cmds/tftp.c:115-121 | an ACK carries its 16-bit block number |
| Tftp.BlockLength | src/cmds/tftp.c:304-308 | all blocks but the last are full, and the last one completes the file |
| TftpGet.Client.Ask | src/cmds/tftp.c:190-210 | the request loop ends with a first DATA packet, a refusal, Ctrl-C or after five silent rounds |
| TftpGet.Client.Pass | src/cmds/tftp.c:219-240 | the next block is written and acknowledged once, a duplicate only acknowledged, others dropped, and a short write ends the transfer |
| TftpGet.Client.Await | src/cmds/tftp.c:242-262 | the waiting loop repeats the last ACK on silence, drops what is not DATA, and gives up after RETRIES |
| TftpGet.Client.Get | src/cmds/tftp.c:186-265 | the nested loops do what the event-by-event description says, for every sequence of events |
| TftpGet.TimeoutNeedsSilence | src/cmds/tftp.c:253-261 | the client gives up for want of an answer only after five silent rounds |
| TftpGet.SilenceEnds | src/cmds/tftp.c:253-261 | six silent rounds in a row end the transfer, whatever came before |
| TftpGetNet.Serve | ci/netsvc.py:260-280 | the server's loops send what the cue-by-cue description says |
| TftpGetNet.Transfer | ci/netsvc.py:281-309 | one transfer sends blocks in lockstep until a short one or an unacknowledged one |
| TftpGetNet.AwaitAck | ci/netsvc.py:293-306 | three rounds for an ACK, repeating the block on a timeout and on a stale ACK |
| TftpGetNet.TakeKeeps | src/cmds/tftp.c:224-239 | whatever young DATA packet arrives, the file stays a prefix of the source |
| TftpGetNet.AckCounts | ci/netsvc.py:300-305 | a young ACK equal in 16 bits is the ACK of the block in flight |
| TftpGetNet.GetSafety | src/cmds/tftp.c:219-264 | in every run the file is a prefix of the source, of whole blocks unless a write failed, and equals it when reported received, across block wrap and server restarts |
| TftpGetNet.GetCompletes | src/cmds/tftp.c:219-235 | every file can be received: some run ends with it |
| TftpGetNet.GetBoundIsTight | src/cmds/tftp.c:220-224 | a DATA packet just 65536 blocks old in a reachable state would be written to the file |
| TftpGetRecovery.DeliveryAnswered | src/cmds/tftp.c:219-240 | in every run a next block written is acknowledged, a duplicate of the last one is acknowledged again, and no other block is |
| TftpGetRecovery.SilenceAnswered | src/cmds/tftp.c:253-261 | in every run each silent round but the one that gives up repeats the last ACK |
| TftpGetRecovery.ServerAnswers | ci/netsvc.py:293-306 | in every run the server repeats its block on a timeout and on a stale ACK, three times, and sends the next on its ACK |
| TftpGetRecovery.OthersDropped | src/cmds/tftp.c:245-252 | in every run a packet that is no DATA changes no file and draws no ACK; an ERROR refuses the transfer |
| TftpGetRecovery.GetRecovers | src/cmds/tftp.c:219-262 | from every reachable state the transfer can be completed by packets yet to be sent if and only if the server waits for the next or the last block with a repetition left |
| TftpPut.PutEnds | src/cmds/tftp.c:280-360 | PUT ends for every network, clock and user within 5 rounds plus 70 for each block |
| TftpPut.PutBlockBound | src/cmds/tftp.c:323-359 | a block takes at most 70 rounds and is transmitted at most six times, always as the same packet |
| TftpPut.NoEarlyResend | src/cmds/tftp.c:318-358 | a block is repeated only after the clock has shown the full timeout since its last transmission |
| TftpPut.AskPatience | src/cmds/tftp.c:280-302 | the request is given up after exactly five idle rounds, an ACK starts the transfer, any other packet refuses it |
| TftpPut.ReplyRules | src/cmds/tftp.c:334-350 | before the deadline an ERROR refuses, only the ACK of the block passes it, and everything else is counted as stray |
| TftpPut.Client.Ask | src/cmds/tftp.c:280-302 | the request loop ends with a first ACK of any block, a refusal, Ctrl-C or after five silent rounds |
| TftpPut.Client.Exchange | src/cmds/tftp.c:326-358 | one round sends, waits and classifies the reply as the description says |
| TftpPut.Client.SendBlock | src/cmds/tftp.c:323-359 | the loop of a block ends within 70 rounds with its ACK or a failure |
| TftpPut.Client.Put | src/cmds/tftp.c:280-360 | the whole command follows the round-by-round description and ends within its bound |
| TftpPutNet.Receive | ci/netsvc.py:316-333 | the receiver's loop accepts, counts and acknowledges as the cue-by-cue description says |
| TftpPutNet.FreshIsExpected | ci/netsvc.py:325-327 | a young DATA packet equal in 16 bits is the block the receiver expects, also after a restart |
| TftpPutNet.PutSafety | src/cmds/tftp.c:307-362 | in every run each upload holds the first blocks once and in order, and on success some upload has all floor(size/512)+1 blocks, the file and its size |
| TftpPutNet.PutCompletes | src/cmds/tftp.c:307-362 | every file can be sent: some run ends with success |
| TftpPutNet.NeedsEveryAck | src/cmds/tftp.c:338-341 | in every run the client passes the request or a block only on an ACK of that very one, not of one 65536 away |
| TftpPutNet.OneAckEach | ci/netsvc.py:316-333 | an upload served once acknowledges the request and each block exactly once |
| TftpPutNet.LostAckEndsPut | ci/netsvc.py:321-330 | when one ACK of a request served once is never delivered, no run of the PUT succeeds |
| TftpPutNet.PutBoundIsTight | ci/netsvc.py:325-330 | a DATA packet just 65536 blocks old in a reachable state would be accepted as the next block |
| TftpPutNet.PutAckBoundIsTight | src/cmds/tftp.c:338-341 | an ACK just 65536 blocks old in a reachable state makes the client report a file as sent whose last block nobody has |
| TftpPutRecovery.PutRecovers | src/cmds/tftp.c:318-358 | from every reachable state the transfer can be completed by packets yet to be sent if and only if the receiver waits for the block in hand and the client has a transmission left |
| Masked.Hook | src/cmds/TolunnetSetup.c:577-658 | the hook, in place on both buffers, gives the verdict of the value-level description, for every proposal |
| Masked.Absorb | src/cmds/TolunnetSetup.c:620-625 | inserted characters go into the hidden text at their place and asterisks into the gadget |
| Masked.Drop | src/cmds/TolunnetSetup.c:626-634 | the characters from the new cursor on are removed from the hidden text |
| Masked.HookReplace | src/cmds/TolunnetSetup.c:635-647 | one character is replaced in the hidden text and covered, or the edit is refused |
| Masked.MemMove | src/cmds/TolunnetSetup.c:620 | an overlapping move places the source as it was |
| Masked.PressRefines | src/cmds/TolunnetSetup.c:564-658 | one key press keeps hidden text, asterisks and cursor in step with a plain field, and a refused one changes nothing |
| Masked.MaskedEditing | src/cmds/TolunnetSetup.c:570-576 | over every session the hidden text is what a plain field with the accepted actions holds, the gadget is as many asterisks, and the out-of-step branch is never taken |
| Masked.RulingInStep | src/cmds/TolunnetSetup.c:577-658 | whatever a gadget proposes: what it may use is as long as the hidden text, a refusal changes nothing, and what it may use is all asterisks if and only if the part not covered was |
| Masked.NeverOutOfStep | src/cmds/TolunnetSetup.c:594-602 | under any proposals of any gadget the two texts keep the same length, so the out-of-step branch is dead |
| Masked.AlwaysMasked | src/cmds/TolunnetSetup.c:570-576 | the gadget shows only asterisks throughout if and only if each accepted proposal had them outside the covered part |
| Ftp.Control.Fill | src/cmds/ftp.c:49-53 | receiving a piece changes nothing about what is still to be read |
| Ftp.Control.ReadLine | src/cmds/ftp.c:42-64 | reads exactly one line of the stream however it arrives, keeps what fits and drops the rest of the line |
| Ftp.Control.Reply | src/cmds/ftp.c:97-137 | reads exactly the lines up to the one that ends the reply |
| Ftp.Control.Reset | src/cmds/ftp.c:33-37 | a new connection drops what the last one left in the buffer |
| Ftp.OneReply | src/cmds/ftp.c:92-96 | a well-formed reply is read to its last line and no further, with the number its digits spell, overlong lines and multi-line replies included |
| Ftp.KthReply | src/cmds/ftp.c:97-137 | after k replies the next one read is the k-th of the stream, with its number and final line |
| Ftp.AnyStream | src/cmds/ftp.c:97-137 | for every stream, well-formed or not: a reply is read if and only if some line has the code of the first line with one and nothing or a space behind it, and then to the first such line |
| Ftp.ReadReplies | src/cmds/ftp.c:97-137 | for every division of the stream into pieces the numbers of the replies come back in order and exactly the replies are consumed |
| Telnet.FilteredAppend | src/cmds/telnet.c:193-243 | filtering two pieces in turn is filtering them joined |
| Telnet.ChunkingIrrelevant | src/cmds/telnet.c:193-243 | data, answers and state do not depend on how the stream is cut |
| Telnet.Session.constructor | src/cmds/telnet.c:154-168 | a new session has asked for echo and suppress-go-ahead and waits for the answers |
| Telnet.Session.HandleOption | src/cmds/telnet.c:52-81 | an option command changes the option's state and is answered as the value-level description says |
| Telnet.Session.Next | src/cmds/telnet.c:196-240 | one octet moves the five-state filter |
| Telnet.Session.Compact | src/cmds/telnet.c:193-243 | in-place compaction leaves the filtered data in front and reads no overwritten octet |
| Telnet.FilterMeaning | src/cmds/telnet.c:193-243 | a stream of data, commands, option commands and subnegotiations comes out as its data alone, with the option commands answered in order by the table of negotiation |
| Telnet.AnswersByTable | src/cmds/telnet.c:52-81 | on every stream an octet that completes an option command draws exactly the answer of the table, and no other octet draws one |
| Telnet.CommandIs | src/cmds/telnet.c:196-225 | an option command is completed exactly behind IAC and its verb in plain data |
| Telnet.RequestsRefused | src/cmds/telnet.c:75-77 | every DO is refused by one WONT, option by option |
| Telnet.LastWordCounts | src/cmds/telnet.c:55-74 | whether a wanted option is on is decided by the server's last WILL or WONT |
| Telnet.NeverEnables | src/cmds/telnet.c:30-34 | whatever the server sends, an option is on at its side only if we want it, and we never offer one of our own |
| Telnet.AnswerRules | src/cmds/telnet.c:52-81 | an answer goes out only with a change of state or as a refusal, and never to the answer to our own request |
| Telnet.ToNvt | src/cmds/telnet.c:83-95 | the encoder needs at most twice the room and writes the encoding |
| Telnet.NvtRoundTrip | src/cmds/telnet.c:83-95 | filtering encoded text gives the text with each bare LF as CR LF, and no option is handled |
| Telnet.NoBareLf | src/cmds/telnet.c:90 | no LF goes out without its CR |
| Telnet.NvtSplit | src/cmds/telnet.c:253-258 | encoding buffer by buffer is encoding the whole if and only if no CR LF is cut in two |
| Telnet.NegotiationEnds | src/cmds/telnet.c:30-34 | two ends of this kind stop answering each other, within a bound given by what is in flight |
| Isqrt.Root | src/cmds/TolunnetPing.c:57-72 | the root rounded down for every 32-bit number, with no intermediate value out of range |
| Civil.YearIs | src/cmds/sntp.c:156-158 | the year formula gives the year of the era that holds the day |
| Civil.FromDaysStep | src/cmds/sntp.c:152-162 | the date of the next day number is the next day of the calendar |
| Civil.DateIsStepped | src/cmds/sntp.c:143-162 | for every day count the date is valid and is the one reached by stepping from 1970-01-01 |
| Civil.DayNumberOfDate | src/cmds/sntp.c:143-162 | counting the days of the date gives the day count back |
| Civil.DateOfDayNumber | src/cmds/sntp.c:143-162 | every calendar date from 1970 on is the date of its day number |
| Lha.BuildHeader | scripts/create_lha.py:29-59 | builds the header exactly for names of at most 233 octets and sizes below 2^32, otherwise fails |
| Lha.Checksum16 | scripts/create_lha.py:11-20 | the bit loop computes the CRC of the data |
| Lha.Pack | scripts/create_lha.py:61-75 | the archive is the entries and the end marker |
| Lha.Extra | scripts/create_lha.py:107-113 | an extra member overwrites the end marker and is followed by a new one |
| Lha.ReadMembers | ci/check_package_parity.py:50-78 | the loop returns the members or the failure of the entry-by-entry description |
| Lha.EntryRead | ci/check_package_parity.py:56-77 | an entry is taken apart exactly wherever it stands |
| Lha.HeaderFields | scripts/create_lha.py:29-59 | method, both sizes, time stamp, attribute, level, name and CRC stand where the format has them |
| Lha.ReadOneIs | ci/check_package_parity.py:56-77 | the reader refuses exactly headers cut short, other methods and two different sizes, and takes name and contents from where they stand |
| LhaCrc.CrcIsRemainder | scripts/create_lha.py:11-20 | the CRC is the remainder of the data's bits and sixteen zeros by x^16 + x^15 + x^2 + 1 |
| Lha.RoundTrip | ci/check_package_parity.py:50-78 | reading a packed archive returns exactly its members, with slashes in their names |
| Lha.ExtraRoundTrip | scripts/create_lha.py:88-115 | an appended member reads back as one more at the end |
| Lha.PackAndRead | scripts/create_lha.py:78-115 | pack, append and read give the members back if and only if all of them fit |
| DnsName.PutLabelsIs | src/cmds/nslookup.c:119-133 | the encoder accepts exactly names with labels of 1 to 63 octets and writes those labels |
| DnsName.PutName | src/cmds/nslookup.c:119-133 | the loop writes the encoding inside its buffer, or reports a bad name |
| DnsName.ReadName | ci/netsvc.py:534-559 | the server's loop reads a name as the recursive description says, for every packet |
| DnsName.ReadWire | ci/netsvc.py:534-559 | encoded labels are read back wherever they stand |
| DnsName.NameRoundTrip | src/cmds/nslookup.c:114-133 | the server reads the client's name back without one trailing dot |
| DnsQuad.IsIpv4 | src/cmds/nslookup.c:22-40 | decides whether a name is a dotted address |
| DnsQuad.QuadIsSplit | src/cmds/nslookup.c:22-40 | an address is exactly four numbers up to 255 of one to three digits between dots |
| DnsQuad.ReadNumbers | src/cmds/nslookup.c:66-79 | the loop reads the numbers of the query encoder |
| DnsQuad.NumbersOfQuad | src/cmds/nslookup.c:64-79 | on an address the encoder's numbers are the address's |
| DnsQuad.DecValue | src/cmds/nslookup.c:80-109 | printing a number and reading it gives it back |
| DnsReply.SkipName | src/cmds/nslookup.c:43-56 | skips a name, compressed or not, inside the packet |
| DnsReply.NameIsExpansion | src/cmds/nslookup.c:176-205 | the name loop succeeds exactly when there is an expansion within 32 pointer jumps, and returns it |
| DnsReply.WriteName | src/cmds/nslookup.c:176-205 | the loop ends on every packet, reads inside it and writes the dotted name cut to the buffer |
| DnsReply.ParseReply | src/cmds/nslookup.c:138-209 | total on every packet: the first matching answer, NUL-terminated and cut to the buffer, or -1 |
| DnsReply.HostIsExpansion | src/cmds/nslookup.c:176-205 | a returned host name is the expansion, by section 4.1.4 of RFC 1035, of the data of a PTR record |
| DnsAnswers.SkipIsName | src/cmds/nslookup.c:43-56 | exactly a name is skipped: good labels up to a zero or a pointer |
| DnsAnswers.RecordIs | src/cmds/nslookup.c:164-171 | a record is a name, ten octets with type and length, and that much data inside the packet |
| DnsAnswers.AnswerIsFirst | src/cmds/nslookup.c:138-209 | for every packet and type the parser finds f if and only if behind the questions records follow each other of which the first matching one says f |
| DnsAnswers.AddressReads | src/cmds/nslookup.c:173-176 | a printed address reads back as its four octets in order |
| DnsAnswers.ServerReadsName | ci/netsvc.py:534-559 | the server reads a name with at most eight jumps as its expansion and goes on behind it |
| DnsAnswers.ServerGivesUp | ci/netsvc.py:539-540 | with more jumps it takes the name for empty |
| DnsLookup.PutQName | src/cmds/nslookup.c:59-134 | writes the name or the reverse name of an address |
| DnsLookup.Encode | ci/netsvc.py:528-532 | the server's encoder loop writes the parts between dots with their lengths |
| DnsLookup.Handle | ci/netsvc.py:568-609 | the server's handling of one packet, with its silences and exceptions |
| DnsLookup.QueryServed | ci/netsvc.py:570-605 | the server reads the client's question completely |
| DnsLookup.AddressRoundTrip | src/cmds/nslookup.c:160-175 | the parser returns the address that a built reply encodes |
| DnsLookup.HostRoundTrip | src/cmds/nslookup.c:176-205 | the parser returns the host name that a built reply encodes |
| DnsLookup.ReverseName | ci/netsvc.py:588-590 | the server reverses the reverse name to the canonical address |
| DnsLookup.LookupName | src/cmds/nslookup.c:114-134 | query, server and parser together give the address if and only if the name, without a trailing dot and in any case, is the known one |
| DnsLookup.LookupAddress | src/cmds/nslookup.c:64-134 | for every dotted address the question is its reverse name, and the host comes back if and only if the numbers are the known ones |

## Left out

- Installer and undo: `Install_Tolunnet.script` is not part of this model; between PREPARE and FINISH the model copies the commands of the package in any order, then `usergroup.library` and the preference tools.
- Histories in which several installs are stopped and none completes afterwards have the safety of `History.HistorySafe` for the first stop only.
- A command called usergroup.library shares its checksum markers with that library, so a history that has one must name it in every version.
- InstallCompletes.InstallCompletes: needs checksums of at most 30 digits, the file system's limit for the name of a marker.
- LintKeys: the watches speak of paths that a line of an accepted script can hold: one word of at most 248 characters.
- Cycles.CyclesRestore: a usergroup.library that the system did not have stays after the undo, as does the directory SYS:Storage.
- The setup wizard's `S:tolunnet-undo-stacks` is taken to be absent, except in `UndoRun.UndoCompletes` and `LintMisses.WizardUnchecked`.
- S:User-Startup: in the install theorems the merge is an arbitrary function of the text; `StartupBlock` models it, but its error on an end mark that stands only in front of the begin mark is no outcome of an install here.
- Checksums are an arbitrary function; only `Versions.LibraryRoundTrip`, `InstallLib.ParkUnpark` and half of `InstallLib.ParkConserves` need that equal sums and sizes mean equal contents of the libraries compared.
- Letter case and whitespace are those of ASCII; the text of an Echo is a list of words; the texts of abort messages are shortened; quotes and escapes of the Installer's string literals are taken as already read.
- Installer functions that the generated sections do not use, sandboxed undo scripts, and the lint's rules about the Installer script itself.
- TftpGet: a local file that cannot be created is not told apart from a refusal; the text of ERROR packets is not modelled.
- TftpGetNet.Serve: one file per server, as the theorem speaks of one transfer; the file names of requests are not modelled.
- TFTP: the recovery theorems say when a transfer can still be completed, not that a fair channel completes it; for PUT that does not hold (`TftpPutNet.LostAckEndsPut`).
- Masked: gadgets built unmasked and the toggling between the two; `Masked.MaskedEditing` compares with a plain field for the edits of a string gadget only.
- Ftp: sending the command, printing, the data connection and the PASV parser.
- Telnet.NegotiationEnds: speaks of two ends that, like this one, enable nothing on request; a peer that agrees to a DO and changes its mind meanwhile is not covered.
- Telnet: the console side, half-close and draining.
- DnsName.ReadName: its second counter of jumps can never reach its limit before the first does and is not a variable of the model.
- DnsReply.ParseReply: printing an address is a function here, not the digit loop of `src/cmds/snapshot.c`; that it reads back is `DnsAnswers.AddressReads`.
- DnsLookup: retries, transaction identifiers of replies, and the 512-octet receive buffer of the client.
- Lha.BuildHeader: the sum octet of a header is defined as the writer computes it; the reader looks at neither sum nor CRC, so nothing is claimed about damaged archives.
- Lha: reading directories and the clock; time stamps are parameters.
- Civil: day counts are natural numbers; the clock part and the 32-bit second counter are not modelled.
- Everything drawn or laid out, the daemon and its IPC, thin command front ends, and the regular-expression checkers: their behaviour is drawing, system calls and pattern matching done outside this repository.
