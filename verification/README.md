# An SMTP client and server, modelled and verified

The repository is a mail system in C. A client watches mail directories, gives every letter to one of several worker
threads, and each worker drives one SMTP connection per domain through a state machine of about twenty states. A server
reads lines out of a 1024-byte buffer, runs the command state machine of section 4.1.4 of RFC 5321 and writes one copy of
a message per recipient. This project models those parts and proves what they keep, step by step and over whole runs.

## What is modelled

| module | part of the system |
|---|---|
| `Text`, `Outcomes` | C strings: first NUL, `strstr`, `strchr`, splitting at CRLF, `atoi` of a reply code; what a send or receive can come to |
| `Connection` | one control step of a client connection as a function; every reply and every send, receive and connect outcome is an input |
| `SmtpInterface` | `FileDesc`, the connection object its handlers update, each handler held to `Connection` |
| `ClientLaws`, `LetterPieces` | what one control step does, told by the texts on the wire; how a letter is cut into sends |
| `ConnectionRuns`, `ConnectionRetries`, `ConnectionForgets`, `ConnectionTheorems`, `ConnectionWitnesses` | the invariants of every run, when a letter gets another try, when a dictionary record is given up, the main results about one connection, and runs that reach its bad ends |
| `ServerBuffer`, `DrainExact`, `FeedExact` | the receive buffer drained in place, against a plain fold over lines, and exactly when the two agree, for one buffer and for a stream of chunks |
| `ServerSession`, `ServerLaws`, `BodyGrowth` | the command state machine, the envelope, delivery; what each command does, told by the texts on the wire; and the growing body |
| `ServerSocket`, `HandedLines`, `ServerFaults`, `ServerCloses` | the accepted connection as an object with a real 1024-character array; exactly when it follows a null pointer and when it is closed |
| `EndToEnd`, `StreamCuts`, `DotLetters`, `JointReset` | client and server joined by a lossless transport; letters with long lines or dot lines; RSET understood |
| `FsmTables` | the generated transition tables and how the handlers follow them |
| `WorkerTasks`, `WorkerPass`, `WorkerTheorems`, `WorkerLaws` | a worker's queue, pools, select sets and passes, on values, and what placing, shutdown and a pass do position by position |
| `WorkerLives`, `WorkerCrashes`, `WorkerRounds`, `WorkerHangs` | the life of one connection under a worker, and whole runs of a worker, turn by turn |
| `WorkerRun` | the worker as an object holding `FileDesc` objects, held to the modules above |
| `Dictionary` | the linked list from domains to workers, changed in place, and its interleavings |
| `Controller`, `ForgottenRecords` | the choice of the least loaded worker, the routing of letters, and what a connection's forgetting does to it |
| `MailPaths` | the path rewrites between `new`, `tmp` and `current` |
| `MakeVars` | the variable resolver of the build script |

The client connection, the server connection, the worker, the dictionary and the mail office are classes whose methods
assign their fields, as the source does. Where the source walks a linked list of tasks or connections the field is a
sequence; the dictionary is a real linked list of objects. Each method's contract equates the new state with a function
of the old one, and the results below are proved about those functions. A connection carries a ghost log of what it sent,
received and moved; the directory a letter is in is read off that log.

Numbers and texts are the source's: control states and session states by their numbers, the 1024-byte buffer, chunks of
997 characters, ten recipients, three tries to add a domain, bodies enlarged to their length plus 2048.

Seven places of the source have no defined behaviour; they are given the obvious one:

- `handleSmtpError` returns 0 (client/smtp_interface.c:1221 returns nothing).
- A connection that cannot be prepared yields null (client/worker.c:504-507 returns freed memory), and its socket counts
  as not in use.
- The pass over the connections takes the successor before a connection is removed (client/worker.c:248).
- A new server session starts in command mode with a zero buffer (server/socket.c:179-199); its descriptor is positive,
  and reply buffers start empty.
- A null pointer followed is a state of its own: `crashed` in a connection, `Crashed` for a worker, `faulted` in a
  server session, which a HELO without a space reaches (server/smtp.c:414).
- Delegating to the worker just past the array, which the source's test lets through (client/controller.c:152), is the
  outcome `OutsideArray`; no such index is ever recorded.
- A letter file closed without its handle being cleared (client/smtp_interface.c:1181), and a file handle never set,
  count as no open file; EHLO without a space names the host "(null)".

An error number of `send` or `recv` is "would block" or "broken" as the handler at hand treats it. Renaming a file
succeeds. The flag that stops a worker is read at the head of its loop, again after the select call, and once for each
connection looked at.
The error loop of a stuck connection, which the source never leaves, ends the modelled loop with `Endless`.

## Main results

- **One connection, any server, any network** (`ConnectionTheorems`): letters are never lost, duplicated or reordered;
  a letter is filed as sent only right after its own unbroken transaction, in which its text was read from first to
  last and the terminator acknowledged; no letter is offered more than twice, here and under a worker; with n letters
  at most 13(2n + 1) + 15 steps make progress, and then the connection is disposed, crashed or in one of three error
  states that its error handler leaves as they are. `ConnectionWitnesses` reaches all three and the crash.
- **Filed need not mean sent whole.** A chunk whose send would block has been read and is skipped, so a letter can be
  filed with none of its text sent (`ConnectionWitnesses.FiledWithoutText`). The chunks sent are all of a filed
  letter's chunks if and only if none was lost that way (`ConnectionTheorems.FiledWhole`), and a call of the sending
  loop loses one exactly when a chunk's send, not the terminator's, is the first to fail (`ConnectionRuns.SpeakLoses`).
- **Returned need not mean tried twice.** Returning a letter does not clear `attempt`, so a letter after a returned one
  is returned on its first failure (`ConnectionWitnesses.ReturnedAfterOneOffer`). After a failed transaction the letter
  is tried again if and only if no RSET was sent since the last filing that left another letter
  (`ConnectionTheorems.TriedAgain`, `WorkerTheorems.WorkerTriesAgain`).
- **Forgetting.** A disposed connection gave up its own domain's dictionary record, and did nothing afterwards but
  return letters or say goodbye, if and only if a 421 greeting did not turn it away
  (`ConnectionTheorems.DisposedForgot`, `WorkerTheorems.WorkerForgot`); with one record per domain that takes just this
  record away (`ForgottenRecords.DisposedUnrecorded`).
- **The server** (`ServerBuffer`, `DrainExact`, `ServerSession`, `ServerSocket`): draining the array in place is
  folding the line handler over the lines, if and only if the write at index 4 of a command line takes no later line
  away; chunk boundaries do not matter, and for a stream in chunks there is an exact condition too
  (`FeedExact.FeedingExactly`); after any calls of the handler everything saved is what the dialogue calls for, and a
  session has followed a null pointer exactly when it was given a HELO without a space before any HELO or EHLO was
  taken (`ServerFaults.FaultsExactly`). It is closed exactly when a call lost the connection, could not send the
  greeting or handed over a QUIT whose reply did not block, and no later call handed over the dot of an unfinished
  text, which opens it again (`ServerCloses.ClosedExactly`, `ServerCloses.DotReopens`); outside a text it stays closed
  (`ServerCloses.ClosedForGood`).
- **Both together** (`EndToEnd.EveryLetterArrives`): after 8n + 6 joint steps every letter is filed and saved,
  unaltered but for its line ends. Long lines and dot lines are left out with reason: a joined run exists exactly
  without lines over 510 characters, and a letter's lines save the letter exactly without a dot line.
- **A worker** (`WorkerTasks`, `WorkerPass`, `WorkerRun`): over any interleaving every delegated letter stays
  somewhere, domains stay apart, and letters to a domain keep their order across connections; the select sets always
  match the connections' states.
- **Letters left behind.** A letter added while its connection says goodbye can end in no queue, no pool and neither
  directory (`WorkerTheorems.LetterLeftBehind`). Over every run of a worker a connection takes letters with it if and
  only if its greeting was 421 with letters in its pool, or a letter was placed while it was sending QUIT or awaiting
  the answer, was still there, and 221 followed (`WorkerRounds.WorkerLeaves`). Past the greeting, letters placed in any
  other state are never left behind (`WorkerLives.LateIs`, `WorkerLives.LateOnly`); shutdown keeps the first of the
  late ones.
- **Hanging.** The worker's inner loop never ends, and all its connections wait, exactly when a pass comes to a ready
  connection whose recipient is refused, or the answer about it unreadable, or that cannot send DATA or RSET
  (`WorkerHangs.WorkerHangsExactly`); one refused recipient is enough (`WorkerHangs.OneRefusalHangs`).
- **Null pointers.** A connection under a worker follows one exactly in two places: in recovery after an unsent QUIT
  with a try spent, or at its first MAIL when shutdown had emptied its pool during the greeting (`WorkerCrashes`,
  `WorkerRounds.WorkerFollowsNull`).
- **The rest**: the dictionary is a map under every interleaving; fair shares; path round trips with their exact
  exception; the resolver succeeds exactly without undefined or circular references and then finds the one solution.

## Model

| member | source | states |
|---|---|---|
| SmtpInterface.FileDesc.SmtpControl | client/smtp_interface.c:42-127 | one call dispatches on the current state and does exactly `Connection.Step`, the step all results about runs are proved of |
| SmtpInterface.FileDesc.HandlePrepareSocketConnection | client/smtp_interface.c:137-250 | only an unprepared connection is prepared; failures keep it unprepared, and connecting in progress awaits the greeting like success |
| SmtpInterface.FileDesc.HandleGreeting | client/smtp_interface.c:252-324 | 220 naming the domain (or a test domain) goes on, 421 goes to disposal with the previous state unchanged, anything else is an error |
| SmtpInterface.FileDesc.HandleSendEhlo | client/smtp_interface.c:326-366 | EHLO is sent once, or the state stays on would-block, or becomes an error |
| SmtpInterface.FileDesc.HandleResponseOfEhlo | client/smtp_interface.c:368-438 | 250 naming the client in a well-formed line clears `attempt` and goes on; 421 goes to disposal |
| SmtpInterface.FileDesc.HandleSendMailFrom | client/smtp_interface.c:440-503 | MAIL for the first letter of the pool; every failure records this state as the previous one |
| SmtpInterface.FileDesc.HandleResponseOfMailFrom | client/smtp_interface.c:505-567 | only a reply that starts with "250 Ok" and CRLF is accepted |
| SmtpInterface.FileDesc.HandleSendRcptTo | client/smtp_interface.c:569-609 | RCPT with the recipient read at MAIL |
| SmtpInterface.FileDesc.HandleResponseOfRcptTo | client/smtp_interface.c:611-674 | as for MAIL |
| SmtpInterface.FileDesc.HandleSendData | client/smtp_interface.c:676-714 | DATA after an accepted recipient |
| SmtpInterface.FileDesc.HandleResponseOfData | client/smtp_interface.c:716-764 | only 354 is accepted |
| SmtpInterface.FileDesc.HandleSendLetter | client/smtp_interface.c:766-841 | the letter's file is opened or resumed and sent; the file is closed only when all of it and the terminator went out |
| SmtpInterface.FileDesc.SendChunks | client/smtp_interface.c:800-829 | the sending loop does what the recursive `Speak` says: which chunks go out, where the file is left, and that a chunk whose send blocks has already been read |
| SmtpInterface.FileDesc.HandleResponseOfLetter | client/smtp_interface.c:843-958 | an accepted letter moves to `current` and leaves the pool; the next letter follows, or QUIT after the domain's dictionary record was given up |
| SmtpInterface.FileDesc.HandleSendQuit | client/smtp_interface.c:960-999 | QUIT only after a letter's reply; reached from RSET it is an error |
| SmtpInterface.FileDesc.HandleResponseOfQuit | client/smtp_interface.c:1001-1051 | 221 goes to disposal |
| SmtpInterface.FileDesc.HandleDisposing | client/smtp_interface.c:1053-1092 | disposal only from its three allowed previous states |
| SmtpInterface.FileDesc.HandleSmtpError | client/smtp_interface.c:1094-1222 | an unsolvable error gives up the domain's dictionary record, returns the whole pool to `new` and disposes; after a failed transaction the letter is tried again while `attempt` is 0 and else returned, and RSET follows either way; in the remaining states nothing changes |
| SmtpInterface.FileDesc.HandleSolvableMistake | client/smtp_interface.c:1224-1263 | RSET after an error |
| SmtpInterface.FileDesc.HandleResponseOfRset | client/smtp_interface.c:1265-1321 | 200 or 250 goes on with the next letter, or to QUIT with an empty pool |
| ClientLaws.OutOfOrder | client/smtp_interface.c:252-1321 | a sending or receiving handler reached from any but its listed predecessors does nothing but report an error; MAIL then names itself as the failed state |
| ClientLaws.ReadFails | client/smtp_interface.c:252-1321 | nothing to read changes nothing and waits; a failed read is an error and changes nothing else |
| ClientLaws.GreetingLeads | client/smtp_interface.c:304-323 | EHLO follows if and only if the greeting starts with 220 and the domain starts with "myserver.co" or stands at index 4 with a space at index 5 after its length; 421 disposes; all else is an error |
| ClientLaws.EhloLeads | client/smtp_interface.c:368-438 | MAIL follows, with no try spent, if and only if the answer starts with 250, ends its text with CRLF and first names the client after a space or dash and before CR; 421 disposes; all else is an error |
| ClientLaws.TransactionLeads | client/smtp_interface.c:505-764 | MAIL and RCPT are accepted exactly by an answer that starts with "250 Ok" and CRLF, DATA by one that starts with 354 |
| ClientLaws.LetterLeads | client/smtp_interface.c:843-958 | exactly an answer that starts with "250 Ok" files the letter; another letter starts with a fresh attempt, the last one leads to QUIT and forgets the domain |
| ClientLaws.FarewellLeads | client/smtp_interface.c:1001-1321 | QUIT is accepted exactly by 221, RSET by 200 or 250; after RSET a letter leads to MAIL, an empty pool to QUIT |
| ClientLaws.CommandGoes | client/smtp_interface.c:326-999 | the bytes of EHLO, RCPT, DATA, QUIT and RSET; a send that would block changes nothing, a broken one is an error |
| ClientLaws.MailGoes | client/smtp_interface.c:440-503 | the bytes of MAIL; without readable headers nothing is sent; every failure names MAIL as the failed state |
| ClientLaws.LetterGoes | client/smtp_interface.c:766-841 | a letter that cannot be opened is not sent; one sent to its end is closed with CRLF, dot, CRLF; a blocked one keeps its file |
| ClientLaws.ErrorLeads | client/smtp_interface.c:1094-1222 | for each failed state by name: the domain forgotten and all letters returned in order; or RSET with one more attempt, or with the letter returned, or a null pointer; or nothing |
| ClientLaws.DisposalLeads | client/smtp_interface.c:1053-1092 | disposal exactly after QUIT's answer, an error, or the preparation |
| ClientLaws.PreparationLeads | client/smtp_interface.c:137-250 | prepared exactly from the unprepared state; in progress is reported as waiting; a failure leaves it unprepared |
| ConnectionRuns.ControlKept | client/smtp_interface.c:42-127 | every step, whatever its input, stays in the table of state pairs and keeps what the table says of `attempt`, pool and log |
| ConnectionRuns.HandedKept | client/smtp_interface.c:1106-1217 | letters moved so far, followed by the pool, is the same sequence after any step of any connection |
| ConnectionRuns.SpeakReads | client/smtp_interface.c:800-829 | a call of the sending loop reads on from where the file stands: what it tried, followed by what is still to be read, are the pieces from there, in order |
| ConnectionRuns.SpeakLoses | client/smtp_interface.c:802-819 | a call loses a chunk exactly when the send of a chunk, not of the terminator, is the first to fail, read off the send outcomes alone; then it loses just that one |
| ConnectionRuns.PiecesWhole | client/smtp_interface.c:802-806 | the pieces of a NUL-free text, one after the other, are the text |
| LetterPieces.PiecesCut | client/smtp_interface.c:802-806 | every piece of a NUL-free letter has 1 to 997 characters and a line feed at most at its end; every piece but the last ends in a line feed or has 997 |
| LetterPieces.OnlyPieces | client/smtp_interface.c:802-806 | a NUL-free text has no other cutting of that kind |
| ConnectionRuns.AcknowledgedText | client/smtp_interface.c:802-829 | chunks sent and chunks lost of an acknowledged letter are together as many as it has, and those sent are all exactly when none was lost |
| ConnectionRuns.TranscriptKept | client/smtp_interface.c:440-958 | the open transaction occupies the end of the log and has read its letter exactly up to the file position; each filing stands right after its acknowledgement |
| ConnectionTheorems.StepSound | client/smtp_interface.c:42-127 | all invariants of a run survive every step |
| ConnectionTheorems.Conservation | client/smtp_interface.c:902-955 | over every run, moved letters followed by the pool are the initial pool; a disposed connection's pool is empty, or untouched after a 421 greeting |
| ConnectionTheorems.MovedOnce | client/smtp_interface.c:902-955 | no letter is moved twice, so none is both filed and returned |
| ConnectionTheorems.FiledMeansAcknowledged | client/smtp_interface.c:440-958 | a letter is filed only right after MAIL, 250 Ok, RCPT, 250 Ok, DATA, 354, every chunk of its text in order, each sent or lost to a failed send, the terminator and 250 Ok, with nothing in between |
| ConnectionTheorems.FiledWhole | client/smtp_interface.c:802-829 | the chunks sent of a filed letter are all its chunks if and only if no send of one would block in its transaction |
| ConnectionTheorems.OfferedAtMostTwice | client/smtp_interface.c:1153-1217 | at most two MAIL commands between two moves of letters |
| ConnectionTheorems.StepAdvances | client/smtp_interface.c:42-127 | a step that does not block lowers the measure; measure 0 is exactly disposed, crashed or stuck, and such a connection no longer changes |
| ConnectionTheorems.Termination | client/smtp_interface.c:1094-1222 | at most 13(2n + 1) + 15 steps of any run make progress, and after that many the connection is final |
| ConnectionTheorems.ReachableStates | client/smtp_interface.c:1096-1219 | the table holds in every run, a letter is there in every transaction state, and the error handler changes nothing exactly in the three stuck pairs |
| ConnectionRetries.RetryKept | client/smtp_interface.c:1153-1217 | past EHLO, in every step of any connection, `attempt` is 1 exactly when an RSET was sent since the last filing that left another letter, or is about to be; a returned letter never clears it |
| ConnectionTheorems.TriedAgain | client/smtp_interface.c:1153-1217 | over every run, after a failed transaction or an unsent QUIT the log decides: the letter is tried again exactly when no such RSET was sent, is returned exactly when one was, and with no letter there a null pointer is followed; after a return this holds until a letter is filed and another left |
| ConnectionTheorems.OnlyCrash | client/smtp_interface.c:1184 | with the pool it started with, the only null pointer a connection follows is in recovery after QUIT could not be sent, when an RSET was sent since the last filing that left another letter |
| ConnectionForgets.ForgetKept | client/smtp_interface.c:902-1151 | in every step of any connection a domain is forgotten only as its own, with the last letter of the pool or when an error ends the session, and the log shows which |
| ConnectionTheorems.DisposedForgot | client/smtp_interface.c:1108 | over every run, a disposed connection forgot its domain, followed only by returned letters or by QUIT and 221 after the last filing, if and only if it was not turned away by a 421 greeting |
| ConnectionWitnesses.StuckReachable | client/smtp_interface.c:611-714 | a rejected recipient, a failed DATA and a failed RSET reach the three stuck pairs, whatever the letters |
| ConnectionWitnesses.CrashReachable | client/smtp_interface.c:1184 | a run of one letter that follows the null pointer exists |
| ConnectionWitnesses.ReturnedAfterOneOffer | client/smtp_interface.c:1170-1217 | every connection with two letters to a test server has a run in which the second is returned after being offered once, because the first was returned before it |
| ConnectionWitnesses.FiledWithoutText | client/smtp_interface.c:802-819 | every connection with one letter of one chunk to a test server has a run that files it with none of its text sent |
| Text.LinesSplit | server/smtp.c:292-345 | splitting at CRLF respects concatenation at a CRLF |
| Text.LinesAsLf | server/smtp.c:625-636 | lines re-terminated with LF are the text with each CRLF replaced, and one LF more |
| Text.CodeOf | client/smtp_interface.c:1419-1428 | three leading digits are read as their number |
| Text.CodeIs | client/smtp_interface.c:1419-1428 | a reply has a three-digit code exactly when it starts with its digits |
| ServerBuffer.IntactExactly | server/smtp.c:301-345 | the text after a line survives the pass exactly when the line is text, has three characters, or nothing reaches beyond index 4 |
| ServerBuffer.ShiftShortens | server/smtp.c:292-345 | each pass keeps a NUL in the last byte and leaves a strictly shorter C string, so the loop ends |
| ServerBuffer.DrainRefinesFold | server/smtp.c:292-345 | the in-place loop handles exactly the CRLF-separated lines of the buffered text, in order, up to QUIT |
| DrainExact.DrainFoldsHandled | server/smtp.c:292-345 | whatever happens to the buffer, the loop folds the handler over the lines it hands to it |
| DrainExact.DrainExactly | server/smtp.c:292-345 | those lines are all the lines of the buffered text, up to QUIT, if and only if every command line has three characters, or no line follows it, or it and the one further line are empty |
| DrainExact.DrainPasses | server/smtp.c:292-345 | one pass byte by byte: the line is cut with a NUL, in command mode with another at index 4, handed over, and the rest moves up with the last bytes left in place; a line that ends the handling moves nothing |
| ServerBuffer.ShortCommandLosesLine | server/smtp.c:301-306 | a two-character command line makes the next line disappear |
| ServerBuffer.DrainLeavesZeros | server/smtp.c:246-345 | whole lines drained out of an otherwise zero buffer leave 1024 zero bytes |
| ServerBuffer.FeedingIsFolding | server/smtp.c:246-345 | any sequence of whole-line chunks of at most 512 bytes gives the state of one fold over the lines of the whole stream |
| FeedExact.DrainSafe | server/smtp.c:292-345 | short command lines too: a chunk of whole lines that is safe from the write at index 4 is handled line by line and leaves 1024 zero bytes |
| FeedExact.FeedingExactly | server/smtp.c:246-345 | every chunk of whole lines hands over exactly its lines, up to a quit, if and only if every chunk is safe; and then the state is that of one fold over the stream |
| ServerBuffer.FeedNuls | server/smtp.c:246-287 | NULs received after whole lines change nothing |
| StreamCuts.CuttableExactly | server/smtp.c:246-287 | a stream can arrive in whole-line chunks of at most 512 bytes exactly when no line exceeds 510 characters |
| ServerSocket.WordInBuffer | server/smtp.c:301-306 | after the two NUL writes the array reads as the line, then as its first four characters |
| ServerSocket.ClientSocket.HandleHelo | server/smtp.c:408-433 | refused without effect outside the initial state; without a space a null pointer is followed; otherwise 250 or 252 by the name lookup, and the session waits for mail |
| ServerSocket.ClientSocket.HandleEhlo | server/smtp.c:435-464 | as HELO, with one reply, and without the null pointer |
| ServerSocket.ClientSocket.HandleMail | server/smtp.c:466-488 | the address becomes the sender; an empty or missing one is answered 450 and leaves the state |
| ServerSocket.ClientSocket.HandleRcpt | server/smtp.c:490-519 | up to ten non-empty recipients are appended |
| ServerSocket.ClientSocket.HandleRset | server/smtp.c:521-546 | the envelope is emptied wherever a reset is allowed |
| ServerSocket.ClientSocket.HandleData | server/smtp.c:548-570 | text mode with an empty body, but only if the 354 reply was sent |
| ServerSocket.ClientSocket.HandleQuit | server/smtp.c:572-585 | closed unless the reply would block |
| ServerSocket.ClientSocket.HandleText | server/smtp.c:613-638 | the final dot delivers, leaves text mode and resets; any other line is appended with LF after room is made |
| ServerSocket.ClientSocket.SaveMessage | server/message.c:106-135 | one copy per recipient, in order; none for an incomplete envelope or an empty body |
| ServerSocket.ClientSocket.HandleBuffered | server/smtp.c:296-340 | the line is cut out of the array and handled as text or as a command |
| ServerSocket.ClientSocket.HandleWord | server/smtp.c:308-337 | the command word selects the handler; a refused command gets the two explanatory replies |
| ServerSocket.ClientSocket.ShiftBuffer | server/smtp.c:341-344 | the rest of the array moves to the front and the tail stays |
| ServerSocket.ClientSocket.DrainLines | server/smtp.c:292-345 | the loop over the array does what the character-by-character description says |
| ServerSocket.ClientSocket.Handle | server/smtp.c:215-348 | one call greets, or reads one chunk, or drains what is buffered, exactly as one step of `RunCalls` on its own flag, and keeps the envelope invariant |
| ServerSession.FoldKeeps | server/smtp.c:408-638 | every session keeps its envelope invariant over any lines and any send outcomes |
| ServerSession.SessionHistory | server/message.c:106-135 | a session that is greeted and given lines up to its first QUIT has saved the copies its dialogue calls for: at each final dot, the sender accepted since the last reset with each recipient accepted since then, in order |
| ServerSocket.CallsHistory | server/smtp.c:191-348 | after any sequence of handler calls, with the flag set as the server's loop likes, any chunks, hang-ups, failed reads and blocked replies, to QUIT too, the envelope invariant holds and the saved copies are those the dialogue calls for |
| ServerCloses.ClosedExactly | server/smtp.c:215-345 | after any sequence of handler calls the session is closed exactly when one of them lost the connection while reading, could not send the greeting, or handed over a QUIT whose reply did not block, and no later one handed over the dot of an unfinished text |
| ServerCloses.ClosedForGood | server/smtp.c:572-585 | a session closed outside a text, as by QUIT, stays closed |
| ServerCloses.DotReopens | server/smtp.c:613-623 | a session lost inside a text is open again once the dot is handled |
| ServerCloses.QuitsExactly | server/smtp.c:329-331 | the handling of buffered lines ends exactly at QUIT in command mode, or at the null pointer of HELO |
| ServerCloses.ReadingLeaves | server/smtp.c:264-287 | bytes go to the front of the buffer and leave the session alone, raising the flag exactly when the buffer holds a CRLF; a read that would block changes nothing; a lost connection closes |
| ServerCloses.CallsFeed | server/smtp.c:264-345 | handler calls that read and drain chunk after chunk are the feeding of the chunks, of which the results about streams and letters are proved |
| ServerFaults.FaultsExactly | server/smtp.c:408-433 | after any sequence of handler calls the session has followed a null pointer exactly when one of them handed over, in command mode and before any HELO or EHLO was taken, a HELO without a space |
| ServerSession.DeliveryResets | server/smtp.c:613-623 | the reset inside a delivery is never refused |
| ServerLaws.CommandIs | server/smtp.c:306-337 | the first four characters select the command |
| ServerLaws.NamesIs | server/message.c:3-13 | the address of a line is the text between the first '<' and the first '>' after it |
| ServerLaws.OnHelo | server/smtp.c:408-433 | "250 Ok" or "252 Ok" with the host by the name comparison; a null pointer without a space; refused with two replies outside the initial state |
| ServerLaws.OnEhlo | server/smtp.c:435-464 | "250-" with the host, or with "(null)" |
| ServerLaws.OnMail | server/smtp.c:466-488 | exactly a non-empty address becomes the sender and is answered "250 Ok"; else 450 and the state stays |
| ServerLaws.OnRcpt | server/smtp.c:490-519 | a non-empty address joins fewer than ten recipients; the eleventh is answered 451, an empty one 450 |
| ServerLaws.OnRset | server/smtp.c:521-546 | in the states 8 to 10 the envelope is emptied and "250 Ok reset" answered, whatever becomes of the reply |
| ServerLaws.OnIdle | server/smtp.c:587-611 | NOOP and unknown words change nothing and are answered "250 Ok noop" and 502 |
| ServerLaws.OnData | server/smtp.c:548-570 | after the recipients the text begins, if "354" was sent |
| ServerLaws.OnQuit | server/smtp.c:572-585 | "221 Ok", and closed unless it would block |
| ServerLaws.OnText | server/smtp.c:624-636 | a text line joins the body with a line feed and is not answered |
| ServerLaws.OnDot | server/smtp.c:613-623 | one copy per recipient in order exactly for a complete envelope and a non-empty body; then an empty envelope and command mode |
| ServerLaws.GreetingSent | server/smtp.c:223-242 | the greeting opens the session, is sent again if it would block, and closes it if it cannot be sent |
| BodyGrowth.BodyIsLines | server/smtp.c:625-636 | the body is the text lines, each followed by LF |
| BodyGrowth.Room | server/smtp.c:625-636 | the line and a NUL always fit; the LF needs one byte more exactly when body and line fill the buffer to its last byte |
| BodyGrowth.NextGrowth | server/smtp.c:627-631 | after the first growth, growths are at least 1027 body bytes apart |
| BodyGrowth.FewGrowths | server/smtp.c:559-563 | a body of n bytes grows at most 1 + n / 1027 times |
| BodyGrowth.LastByteReached | server/smtp.c:625-636 | lines of 1021, 1021 and 3 characters reach that last byte |
| EndToEnd.CommandJoint | client/smtp_interface.c:476 | a command sent is one line read and one reply under way, whatever NUL follows it |
| EndToEnd.LetterFed | server/smtp.c:613-638 | a letter read in any whole-line chunks gives one reply and one copy, its CRLFs turned into LF plus one LF |
| EndToEnd.LetterRound | client/smtp_interface.c:440-958 | eight joint steps send, save and file one letter |
| EndToEnd.EveryLetterArrives | client/smtp_interface.c:766-841 | after 8n + 6 joint steps the run has ended by QUIT, every letter is in `current`, and the server has saved exactly the letters, in order, with their addresses and texts |
| DotLetters.FirstDotEnds | server/smtp.c:613-623 | of a letter with a dot line the lines before the first one are saved as a copy, none if there are none, and the session then takes commands |
| DotLetters.SavedExactly | server/smtp.c:613-638 | reading a letter's lines saves exactly the letter if and only if none of them is a single dot |
| JointReset.ResetUnderstood | client/smtp_interface.c:1224-1321 | the bytes of the client's RSET are a line that empties the server's envelope, and the text of the server's reply leads the client to its next MAIL |
| StreamCuts.JoinedExactly | server/smtp.c:246-287 | a joined run of a fresh client and such letters exists, and so all arrive, exactly when no line of a letter exceeds 510 characters |
| FsmTables.ServerSimulates | server/fsm/server-fsm.c:103-256 | every handled line of an open session is a path of at most two transitions of the table |
| FsmTables.GreetingSimulates | server/smtp.c:215-245 | a sent greeting is the table's established edge |
| FsmTables.LossSimulates | server/smtp.c:246-287 | a lost connection is the table's failure edge exactly when the greeting had been sent |
| FsmTables.ClientSimulates | client/autogen-fsm.c:109-614 | a step of any connection in the table, before disposal, is a path of at most three transitions exactly when it is not a 421 reply; every error entry is the table's error edge |
| WorkerTasks.TasksConserved | client/worker.c:256-399 | over any interleaving of delegation, placing, control steps, removals and shutdown, every letter is in the queue, with a connection, with a removed connection or returned, as often as it was delegated |
| WorkerTasks.DomainsKept | client/worker.c:405-508 | no two connections serve one domain, and none is given a letter to another domain |
| WorkerTasks.OrderKept | client/worker.c:256-399 | letters to one domain are handled in the order delegated, across all its connections, leaving out only those the worker returned |
| WorkerPass.Drive | client/worker.c:133-147 | the inner loop leaves the connection blocked on its socket, disposed or crashed, losing no letter; where the source's loop never ends, the model stops with `Endless`, and only in a stuck state |
| WorkerHangs.StuckExactly | client/smtp_interface.c:611-714 | a step leaves a connection stuck exactly when the reply to RCPT is not 250 Ok or cannot be read, or DATA or RSET cannot be sent |
| WorkerHangs.DriveHangs | client/worker.c:133-147 | the source's inner loop never ends exactly when it comes, without blocking before, to such an input |
| WorkerPass.SelectSets | client/worker.c:209-246 | reader and writer sets are disjoint, together exactly the ids of the connections, and agree with the states |
| WorkerPass.AfterTurn | client/worker.c:126-246 | the sets are right again after a connection had its turn, kept or removed |
| WorkerPass.SelectJoin | client/worker.c:312 | and after a connection was opened |
| WorkerLaws.TaskPlaced | client/worker.c:262-319 | the first task joins the first pool to its domain; without one a prepared socket makes a connection with just this letter, whatever other connections there are; only if none can be prepared it goes back |
| WorkerLaws.OpenGetsAll | client/worker.c:256-324 | placing the queue gives an open connection all the letters to its domain, in order, behind those it had, whatever openings fail |
| WorkerLaws.NewGetsAll | client/worker.c:290-316 | if every socket asked for can be prepared, a domain without a connection gets one with all its letters |
| WorkerLaws.NoneReturned | client/worker.c:290-316 | and placing returns nothing |
| WorkerLaws.ShutdownLeaves | client/worker.c:332-399 | shutdown leaves each connection its first letter from state 2 on, and none before, and returns the rest in order |
| WorkerLaws.PassSorts | client/worker.c:119-249 | a pass keeps, in order, exactly the connections that were not ready or are neither disposed nor idle while the worker is told to stop, and removes the others |
| WorkerLaws.TurnGoes | client/worker.c:71-250 | one turn: shutdown once, nothing more without a letter ever delegated, placing, and a look at the reported connections, or at all open before once the worker is closing |
| WorkerRun.Worker.constructor | client/worker.c:20-43 | an idle worker with empty sets |
| WorkerRun.Worker.Delegate | client/controller.c:157-173 | the task goes to the end of the queue and is counted |
| WorkerRun.Worker.FindSocketByDomain | client/worker.c:405-423 | the first connection to the domain |
| WorkerRun.Worker.AddNewSocketConnection | client/worker.c:425-508 | a prepared connection joins the end of the list; a failure leaves the list as it was |
| WorkerRun.Worker.PlaceTask | client/worker.c:262-319 | the first task goes to the end of its connection's pool, to a new connection, or back to `new` |
| WorkerRun.Worker.ProcessingTasks | client/worker.c:256-324 | the whole queue is placed, and the select-set invariant is kept |
| WorkerRun.Worker.CutPool | client/worker.c:347-391 | past the greeting only the head of the pool stays, before it nothing; the rest is returned in order |
| WorkerRun.Worker.ClosingConnections | client/worker.c:332-399 | every pool is cut, and exactly the open domains lose their dictionary record |
| WorkerRun.Worker.Control | client/worker.c:133-147 | the loop over control steps does what `WorkerPass.Drive` says; status is 0 exactly for disposed and 1 for blocked |
| WorkerRun.Worker.RemoveSocketConnectionFromPool | client/worker.c:510-545 | the search by id removes this connection and no other |
| WorkerRun.Worker.ServeReady | client/worker.c:149-165 | disposed connections leave, and blocked ones with an empty pool during shutdown; the branch that gives up the dictionary record is dead |
| WorkerRun.Worker.Reselect | client/worker.c:209-246 | a blocked connection is waited for in the set its state calls for; the "Fail SMTP Graph STATE" branch is dead |
| WorkerRun.Worker.Sweep | client/worker.c:119-249 | a pass drives exactly the connections found ready, in list order |
| WorkerRun.Worker.Iterate | client/worker.c:71-250 | one turn of the outer loop is exactly `WorkerRounds.Around`: shutdown once, then placing, then a pass; the invariant holds again at the loop head |
| WorkerRun.Worker.Run | client/worker.c:48-254 | the loop does exactly the turns of `WorkerRounds.RunRounds`, of which the results over runs are proved, with any arrivals, and stops at its head only when told to with no connection left; the invariant holds at every loop head |
| WorkerRun.WorkerKeeps | client/worker.c:48-254 | in every reachable state of the worker object letters are conserved, domains apart and in order |
| WorkerTheorems.WorkerFilesAcknowledged | client/worker.c:119-249 | filed means read whole and acknowledged also for connections whose pools the worker extends and cuts |
| WorkerTheorems.WorkerFiledWhole | client/smtp_interface.c:802-829 | and sent whole exactly when no chunk was lost |
| WorkerTheorems.WorkerOffersAtMostTwice | client/worker.c:119-249 | no connection of a worker offers a letter more than twice |
| WorkerTheorems.WorkerTriesAgain | client/worker.c:119-249 | after a failed transaction the log decides as in `ConnectionTheorems.TriedAgain`, whatever was added to the pool or cut from it |
| WorkerTheorems.WorkerForgot | client/worker.c:119-249 | the same for every connection a worker has or had |
| WorkerLives.DriveLeaves | client/worker.c:133-165 | a turn ends with a disposed connection that has letters exactly when they were there and the greeting was 421 or QUIT was answered 221, read off the inputs; and then it has all it had |
| WorkerLives.LateIs | client/worker.c:266-287 | while a connection says goodbye its pool is exactly the letters placed since it began to, of which shutdown keeps the first |
| WorkerLives.LateOnly | client/worker.c:266-287 | every such letter was placed while QUIT was being sent or its answer awaited |
| WorkerLives.LettersLeft | client/worker.c:149-165 | over every life of a connection: it ends disposed with letters if and only if its greeting was 421 with letters there, or such a letter is still there when 221 is read; those left are then the whole pool |
| WorkerRounds.WorkerLeaves | client/worker.c:48-254 | over every run of a worker, each removed connection lived such a life, and took letters with it if and only if that condition held |
| WorkerCrashes.CrashExactly | client/smtp_interface.c:440-457 | a step of a connection under a worker follows a null pointer exactly at MAIL, or in recovery after an unsent QUIT with a try spent by the log, each with an empty pool |
| WorkerCrashes.EmptiedIs | client/worker.c:347-391 | before its first MAIL a connection's pool is empty exactly when shutdown cut it during the greeting and no letter was placed since |
| WorkerCrashes.LifeCrashes | client/smtp_interface.c:1184 | over every life, these are the only two crashes, and the one at MAIL needs that shutdown |
| WorkerCrashes.ShutdownCrash | client/worker.c:332-399 | shutdown during the greeting, then a greeting and EHLO that do not block, reach the null pointer at MAIL |
| WorkerRounds.WorkerFollowsNull | client/worker.c:48-254 | the same over every run of a worker |
| WorkerHangs.WorkerHangsExactly | client/worker.c:119-249 | over every run, a worker hangs if and only if in some turn its pass, the loops over the connections before having ended, comes to a ready one whose loop never ends |
| WorkerHangs.OneRefusalHangs | client/worker.c:133-147 | one letter to a test server that refuses its recipient hangs the worker in its second turn, if nothing blocks |
| WorkerTheorems.LetterLeftBehind | client/worker.c:266-287 | a letter added to a connection awaiting the answer to QUIT ends in no queue, no pool and neither directory |
| Dictionary.DomainList.AddDomainRecordToDictionary | client/dictionary.c:19-63 | a last record is linked in, or -1 and no change without memory |
| Dictionary.DomainList.FindDomainInDictionary | client/dictionary.c:65-83 | the worker of the first record for the domain, or -1 |
| Dictionary.DomainList.RemoveDomainRecordFromDictionary | client/dictionary.c:85-121 | the first record for the domain is unlinked, whether first, last or in between; all others stay linked in order |
| Dictionary.RemovalIsFull | client/dictionary.c:85-121 | removal removes the mapping exactly when the domain had one record at most |
| Dictionary.RemovalIsMapRemoval | client/dictionary.c:85-121 | with unique domains removal is map removal |
| Dictionary.AdditionIsMapUpdate | client/dictionary.c:19-63 | adding an absent domain is map update |
| Dictionary.NoDoubleRecord | client/file_viewer.c:209-216 | however look-up, addition and removals interleave, no domain has two records and removal is map removal |
| ForgottenRecords.DisposedUnrecorded | client/dictionary.c:85-121 | with one record per domain, what a disposed connection of a worker asks of the dictionary takes away its domain's record and no other, if and only if it was not turned away by a 421 greeting |
| Controller.MailOffice.MostFreeWorker | client/controller.c:134-148 | the leftmost worker with the fewest letters ever delegated |
| Controller.MostFreeIs | client/controller.c:134-148 | that index is determined by its property |
| Controller.MailOffice.DelegateTaskToWorker | client/controller.c:150-178 | the letter is the last of the chosen worker's queue and counted; an index greater than the number of workers is refused without effect; the index equal to it, and a negative one, read outside the array |
| Controller.MailOffice.AddDomain | client/file_viewer.c:211-216 | at most three tries add the domain exactly once, or not at all |
| Controller.FitsIn | client/file_viewer.c:211-216 | a domain is added exactly when one of three tries finds memory |
| Controller.MailOffice.ProcessLetter | client/file_viewer.c:209-232 | find or add, then delegate |
| Controller.MailOffice.ProcessingLetters | client/file_viewer.c:180-236 | the loop routes every letter in order |
| Controller.OneWorkerPerDomain | client/file_viewer.c:209-232 | until a domain is forgotten all letters to it are with one worker |
| Controller.FairShares | client/dictionary.c:49 | while every letter is to a new domain, no worker is ever given two letters more than another |
| MailPaths.RoundTrip | client/file_viewer.c:329-349 | to `tmp` and back restores any path exactly when no directory `tmp` stands before its first directory `new` |
| MailPaths.UserRoundTrip | client/file_viewer.c:171-177 | for the program's own paths: exactly when the user is not called "tmp"; and where the letter is meanwhile |
| MailPaths.UserFiled | client/file_viewer.c:351-360 | a letter is filed in its own user's `current` exactly when the user is not called "tmp" |
| MakeVars.NoVars | server/fsm/makesimple:137-150 | replacing the first reference until none is left gives the whole expansion, or stops at an unknown one |
| MakeVars.EntangledMeansCycle | server/fsm/makesimple:192-211 | variables that all refer into their own finite set contain a cycle |
| MakeVars.UniqueSolution | server/fsm/makesimple:192-211 | without a cycle there is at most one full expansion |
| MakeVars.CalcVars | server/fsm/makesimple:192-211 | at most one round more than variables; success exactly when all references are defined and acyclic; the result is then the one full expansion, in whatever order the variables are taken |

## Left out

- Sockets, MX lookup, signals, `fork`, message queues and files: their outcomes are inputs.
- Parsing a letter's headers (`setDomainFromFile`, `setLetterMetaData`): sender, recipient and domain come with the letter.
- String buffer sizes on the client (`calloc` lengths, `sprintf` targets): texts are sequences. The server's receive buffer
  is an array and the capacity of a body is a number.
- EndToEnd.EveryLetterArrives: assumes nothing blocks, commands and whole-line chunks of at most 512 bytes, non-empty
  addresses, and no line of a letter equal to a single dot, because after a blocked send the client skips the chunk it had
  already read, the server does not reassemble split lines, and neither side stuffs dots (section 4.5.2 of RFC 5321);
  `ConnectionWitnesses.FiledWithoutText`, `StreamCuts.JoinedExactly` and `DotLetters.SavedExactly` show the need.
- ServerBuffer.FeedingIsFolding, FeedExact.FeedingExactly: assume chunks of whole lines, because `buffer_offset` is never
  advanced and a split line is not reassembled by the code.
- FeedExact.FeedingExactly: its condition is exact chunk by chunk; of a chunk that is not safe it says only that its lines
  are not all handed over as they are.
- FsmTables.ClientSimulates: says nothing of disposal and error recovery, for which the table has states but no edges the
  handlers take.
- WorkerRun.Worker.Run: counts turns, because the source's loop need not end; delegation happens between turns, as the lock
  on the queue allows it to be placed.
- MakeVars.CalcVars: values are plain text and plain references; function calls such as `foreach` and `patsubst`, and text
  that becomes a reference only after expansion, are not modelled.
- MailPaths: the path builders are expressions on strings; filling the destination in place, and a path without the
  directory sought, for which the source follows a null pointer, are not modelled.
- The lists of tasks and connections are sequences, so relinking their nodes in place is not captured.
- The too-long reply of the server (server/smtp.c:246-263): `buffer_offset` is always 0, so it is never given.
- The `HANDLE_*` macros and the current state kept by the FSM step functions, the dot generators, the older
  `smtp_handler`, `test_client.c`, loggers, reports, process start-up and `allowed_commands` beyond its two replies: they
  would add only easy members.
