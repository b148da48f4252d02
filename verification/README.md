# Verification model of imapdl

imapdl fetches the messages of an IMAP mailbox into a maildir and then deletes them on the server. An interrupted run
leaves a journal of the UIDs that are still to be deleted; the next run deletes them before it fetches. This project
models that protocol and the text machines below it, and proves that nothing is deleted that was not delivered, that
nothing delivered is forgotten, and that what is written is what is read.

| file | models |
|---|---|
| `Client.dfy`, `ClientObject.dfy` | the client's handlers and tasks, as functions on its fields and as an object that changes them in place |
| `World.dfy` | the client among server mailboxes, other clients, the journal file and the maildir; which steps are possible |
| `Safety.dfy`, `Conservation.dfy`, `Hazards.dfy` | what holds over all runs, and exactly where it stops to hold |
| `Commands.dfy`, `Answers.dfy`, `Session.dfy` | the command language of a run, what follows each answer and when it throws, and the client on top of the tag table |
| `Tags.dfy` | the tag generator and the dispatch of tagged responses |
| `SelfCheck.dfy` | the check of each command against the connection state before it is sent |
| `SequenceSet.dfy`, `SequenceText.dfy`, `OrderText.dfy` | UIDs as an interval set, as text, and read back |
| `Literal.dfy` | literals, with CRLF conversion on the fly, in arbitrary chunks |
| `Base64.dfy`, `QDecoder.dfy`, `HeaderDecoder.dfy` | encoded-words and header fields |
| `Maildir.dfy`, `Delivery.dfy`, `Files.dfy` | unique names, flag suffixes, the move out of `tmp` in single system calls, and whole runs down to the files |
| `Text.dfy`, `Buffer.dfy` | octet machines, decimal numbers, and the contract of the buffer library |

A machine that the source writes as Ragel actions or as methods on fields appears twice: as a step function, which the
theorems are about, and as a class whose methods change fields in place and are proved to compute that function.

## Assumptions

- Buffers (libbuffer is not part of the repository): `start` empties and opens a run, `cont` opens a run without
  flushing, `stop` and `finish` append the open run and close it, `Resume` appends an open run at the end of a chunk and
  reopens it at the next. `Buffer.dfy` writes this down.
- Runs (`World.SoundOptions`): with deletion on, not the header task, and the mailbox option equal to the mailbox of a
  pending journal. `Hazards.SoundOptionsExact` proves that this is exactly what a trustworthy journal needs.
- Server (`World.Enabled`, `World.Complete`): UIDs are never reused under one UIDVALIDITY (section 2.3.1.1 of RFC 3501);
  UIDVALIDITY is announced before the OK for SELECT and does not change while the mailbox is selected; an OK is sent only
  for what was done; a FETCH response belongs to the selected mailbox and, while a download fetches, carries the body
  asked for before it ends; UIDs are in 1..2^32-2. That the body sent is also delivered is proved, not assumed.
- Behind the end of a session (`World.CutShort`): data may still be processed, but not the end of a response that was cut
  short between its UID and its body. `Hazards.SignalExact` proves that this is exactly what a sound journal needs.
- Other processes may rename the files of `new` and `cur`, but do not remove them (`Files.Respects`).
- A throw in a handler unwinds the event loop; only the destructor runs after it. The destructor may or may not manage to
  write the journal.
- The journal file stores the intervals faithfully; boost::icl joins overlapping and touching intervals.
- In the machine of the self-check, no command is accepted in the state that LOGOUT jumps to.

## Where the code differs from what one may expect

- `write_journal` stores the mailbox of the options, not the one the journal came from (`Hazards.OtherMailbox`).
- The header task collects UIDs of messages that it does not download (`Hazards.HeaderTask`).
- `imap_data_fetch_end` has no guard on the state (`Hazards.SignalExact`).
- A message whose response ends while the deletion is under way is forgotten when the UIDs are cleared
  (`Conservation.ConservationExact`, `Hazards.LateMessageForgotten`).
- 2^32-1 is printed as `*` (`SequenceText.SequenceSetRoundTrip`).
- CRLF conversion loses octets when a literal ends badly, for example in one octet behind CRLF or in two CRs
  (`Literal.ConversionExact`, `Literal.BadEndingLoses`).
- A header with two `=` in a row in a plain word is refused (`HeaderDecoder.PlainWordExact`).
- White space is lost before a plain word that starts with `=`, behind an encoded-word or at the start of a folded line,
  and between an encoded-word and a line end (`HeaderDecoder.KeptExact`).
- Assigning to an interval set adds to it (`SequenceSet.AssignRestores`).

## Model

| member | source | states |
|---|---|---|
| Safety.NothingLost | copy/client.cc:76-107 | Over any number of runs, each cut off at any step, with other clients adding, flagging and removing messages, with UIDVALIDITY changes and with data processed behind the end of a session: every message that a UID EXPUNGE of ours removed had been linked into the maildir before |
| Safety.OrdersBacked | copy/client.cc:357-390 | Every UID ever sent in a UID STORE or UID EXPUNGE stands for a message delivered from the selected mailbox under the UIDVALIDITY in force when it was sent, also if it came out of a journal; it lies in 1..2^32-2 |
| Safety.UidsUnderAnnouncedValidity | copy/client.cc:484-494 | Once the server has announced a UIDVALIDITY for the selected mailbox, it is the client's, and every UID held for deletion was recorded under it |
| Safety.MaildirInStep | copy/client.cc:496-556 | While fetching, the redirected buffer and the pending maildir name exist exactly inside the full body being received; neither maildir consistency error can be thrown |
| Safety.ActionKeeps | copy/client.cc:484-586 | Each action of the process, the server and other clients keeps the invariant behind these theorems |
| Safety.TaggedKeeps | imap/client_base.cc:149-169 | An answer, with the command its continuation sends, keeps the invariant |
| Safety.ValidityKeeps | copy/client.cc:484-494 | An announced UIDVALIDITY keeps the invariant: UIDs of another UIDVALIDITY are cleared before they can be sent |
| Safety.FetchCloseKeeps | copy/client.cc:510-516 | Closing a FETCH response keeps the invariant: the UID pushed stands for a message delivered under the UIDVALIDITY in force |
| Safety.CloseBacked | copy/client.cc:496-556 | What the client takes in at the end of a response is already in the maildir: while it fetches because the server has sent the body and the handlers have moved it, behind the end of the session because an earlier or the same body was moved before |
| Safety.BodyProgress | copy/client.cc:525-556 | From the flag, the pending name and the redirected buffer being in step it follows that a whole body sent while fetching is moved, unless the handler throws |
| Safety.FetchBodyKeeps | copy/client.cc:537-556 | The end of a body keeps the invariant, whether or not the move from tmp goes through: a whole body that the server has sent to a fetching client is in the maildir, or the client has thrown |
| Safety.DownloadEffect | copy/client.cc:164-186 | Resuming the download coroutine anywhere changes UIDs and mailbox only together with the command that makes it safe |
| Conservation.ConservationAtCut | copy/client.cc:98-107 | While no new UID is taken in during a deletion: at every point of a download with deletion, each message delivered or taken over from a journal is off the server by a confirmed expunge (unless another client unflagged it), or in the journal that the destructor would write, or its FETCH response is open, or it was recorded under a UIDVALIDITY that was replaced |
| Conservation.ConservationExact | copy/client.cc:164-186 | For every message that a download with deletion delivered, at every point, without that restriction: it has a confirmed expunge, is in the journal that the destructor would write, or its response is open, if and only if the client has not forgotten its UIDs yet or did not take it in as a new UID between sending UID STORE and the OK for the expunge |
| Conservation.ConfirmedGone | copy/client.cc:357-390 | What was named by a UID STORE and by the expunge behind it, both answered with OK, is off the server, unless another client took its \Deleted flag away |
| Conservation.FetchCloseBooks | copy/client.cc:510-516 | The end of a response moves its message from the open response to the UIDs held, or marks it late |
| Conservation.EndLatest | copy/client.cc:174-184 | The OK for the expunge of the task, behind which the UIDs are forgotten, confirms every message held but the late ones |
| Conservation.CleanupBeforeFetch | copy/client.cc:144-160 | When FETCH is outstanding, every message of the journal that was read was named by the UID STORE and the expunge of the cleanup, both answered with OK, and is off the server, unless another client took its \Deleted flag away |
| Conservation.StepBooks | copy/client.cc:164-186 | Every action keeps the account of delivered, held, ordered, confirmed and late messages, stage by stage |
| Hazards.SoundOptionsExact | copy/client.cc:98-107 | For all options and journal mailboxes: from every reachable world, every run leaves a journal of delivered messages only, if and only if deletion is off, or the task is not the header task and the mailbox option is the journal's mailbox |
| Hazards.OtherMailbox | copy/client.cc:98-107 | A journal of another mailbox, left by a reachable run, is written back under the mailbox of the options |
| Hazards.HeaderTask | copy/client.cc:191-201 | A run of the header task that is cut off leaves a journal with UIDs of messages that were never downloaded |
| Hazards.SignalLosesBody | copy/client.cc:438-445 | From every reachable world between the UID and the body of a message: a signal, with the rest of the response still processed, body included, puts the undelivered message into the journal |
| Hazards.SignalExact | copy/client.cc:109-133 | For every reachable world of a download with deletion: whatever the server, the timer and other clients do behind a signal, with all of it processed up to the destructor, the journal holds delivered messages only, if and only if the signal does not find the fetching client between the UID and the body of a message |
| Hazards.BetweenReachable | copy/client.cc:579-586 | Every download with deletion can get between the UID and the body of a message |
| Hazards.LateMessageForgotten | copy/client.cc:174-184 | For every download with deletion there is a behaviour of a disciplined environment at whose end a delivered message is on the server, in no order ever sent and in no journal: its response came in between the sending of UID EXPUNGE and the OK for it |
| Commands.DownloadLanguage | copy/client.cc:164-186 | Whatever callbacks arrive in whatever order, a download sends a prefix of a word [CAPABILITY] LOGIN [CAPABILITY] [SELECT STORE EXPUNGE] SELECT [FETCH [STORE EXPUNGE]] LOGOUT, and has at most one command outstanding |
| Commands.CapabilityRules | copy/client.cc:285-301 | LOGIN is sent only if IMAP4rev1 is in the capability list in force and LOGINDISABLED is not; messages are removed by UID EXPUNGE if and only if UIDPLUS is in the list in force, listed since the login, else by EXPUNGE |
| Commands.HandleStage | copy/client.cc:135-186 | One event, in any stage, leaves the stage, moves to the following stage sending its one command, or throws and sends nothing |
| Commands.TaggedStage | imap/client_base.cc:149-169 | The OK for the outstanding command leads to the following stage |
| Answers.OkExactly | copy/client.cc:135-301 | The OK for the outstanding command, in every stage of every task: it throws if and only if the login is not possible or there are no UIDs to name, in terms of the fields before it; otherwise exactly the next command is sent and the other fields are as listed |
| Answers.TimerExactly | copy/client.cc:232-248 | The first firing of the timer asks for capabilities if none were heard, and logs in otherwise |
| Answers.ThrowsExactly | copy/client.cc:109-586 | In every stage, every event throws exactly if it is listed to, and for the listed reason |
| Answers.SelectsNamed | copy/client.cc:144-162 | In every run of every task the mailboxes selected are that of the journal first, if one was read, and then that of the options, each at most once |
| Answers.CleanupThenTask | copy/client.cc:144-162 | In each stage the run has selected exactly the mailbox of the journal for the cleanup and that of the options for the task |
| Answers.FetchExactly | copy/client.cc:164-186 | A download whose SELECT is answered sends FETCH if and only if the latest message count announced since the login is not zero, else LOGOUT |
| Answers.OverLoggedOut | copy/client.cc:184-186 | A run whose LOGOUT was answered is logged out, and stays so |
| Session.RunCoupled | imap/client_base.cc:53-169 | Up to the first throw of the client, the base object never throws (no command still active, no unknown tag), and its tag table with continuations is the table of the client's outstanding commands |
| Session.AnswerCoupled | imap/client_base.cc:159-168 | The OK for an outstanding tag runs the continuation stored for it and removes it from both tables |
| Tags.TagsNeverRepeat | imap/client_writer.cc:39-75 | Over any interleaving of next and pop, issued tags are distinct, both internal consistency errors are unreachable, and next fails only for a command still active |
| Tags.NextText | imap/client_writer.cc:47-51 | Writing over the buffer from position 0 leaves no stale tail: decimal width never shrinks |
| Tags.NextKeepsInv | imap/client_writer.cc:39-59 | next keeps tags and active commands in bijection and adds one entry under a new tag, or refuses an active command and changes nothing |
| Tags.PopKeepsInv | imap/client_writer.cc:60-75 | pop removes the tag and its command and keeps the bijection |
| Tags.DispatchCorrect | imap/client_base.cc:149-169 | In every run: up to the first throw, the tags with a continuation are the outstanding tags; the continuations that ran are those of the tags answered with OK, each once, in the order of the OKs, and each is the one stored for its tag |
| Tags.RanExactly | imap/client_base.cc:154-168 | The tags whose continuations ran are the tags of the OK responses among the events before the first throw, in order; nothing else runs one |
| Tags.NoEndsRun | imap/client_base.cc:154-158 | A response other than OK ends the run: nothing is called, registered or popped behind it |
| Tags.FailsExactly | imap/client_base.cc:149-169 | A command or response throws if and only if the command is still active, or the response is not OK or its tag is not outstanding |
| Tags.TagShape | imap/client_writer.cc:47-51 | A tag is the prefix and the number in decimal digits, padded to the width and never cut |
| Tags.Tag.constructor | imap/client_writer.cc:35-38 | No tag is in use |
| Tags.Tag.Next | imap/client_writer.cc:39-59 | The object changes as NextTag says, for all outcomes |
| Tags.Tag.Pop | imap/client_writer.cc:60-75 | The object changes as PopTag says, for all outcomes |
| Tags.ClientBase.AsyncCommand | imap/client_base.cc:53-61 | Issues a tag and stores the continuation under it |
| Tags.ClientBase.TaggedStatusEnd | imap/client_base.cc:149-169 | Returns the continuation of an outstanding tag answered with OK, after removing it; fails for any other status or tag |
| SequenceSet.PushSpec | sequence_set.cc:51-60 | Every push keeps the intervals sorted, disjoint and non-adjacent and adds exactly the pushed numbers |
| SequenceSet.CanonicalUnique | sequence_set.cc:61-67 | A set of numbers has one canonical interval list |
| SequenceSet.PushOrderIrrelevant | sequence_set.cc:51-67 | The copied list depends only on the set of pushed numbers |
| SequenceSet.AssignRestores | sequence_set.cc:107-112 | Assigning a copied list restores it if and only if the target held nothing else |
| SequenceSet.SequenceSet.PushId | sequence_set.cc:51-55 | Adds one number |
| SequenceSet.SequenceSet.PushRange | sequence_set.cc:56-60 | Adds the numbers of a range; a reversed range adds none |
| SequenceSet.SequenceSet.Copy | sequence_set.cc:61-67 | Returns the canonical list for the set |
| SequenceSet.SequenceSet.Size | sequence_set.cc:68-71 | The number of intervals, zero exactly for the empty set |
| SequenceSet.SequenceSet.Empty | sequence_set.cc:113-116 | Tells whether the set is empty |
| SequenceSet.SequenceSet.Clear | sequence_set.cc:72-75 | Empties the set |
| SequenceSet.SequenceSet.Assign | sequence_set.cc:107-112 | Adds the numbers of a list; into an empty set it restores a copied list exactly, which makes the journal round trip exact |
| SequenceText.SequenceSetRoundTrip | imap/client_writer.cc:176-207 | The text for any pushed UIDs in 1..2^32-1 is a sequence-set and denotes exactly these UIDs if and only if 2^32-1 is not among them or is the largest UID in use |
| SequenceText.ReadExact | imap/server_parser.rl:376-404 | The grammar accepts a text as a list of items if and only if it is their spelling, with numbers in decimal form, not zero and in 32 bits |
| SequenceText.FeedNumber | imap/server_parser.rl:376-404 | Reading back a written number, with the 32-bit conversion, gives the number, or `*` for 2^32-1 |
| SequenceText.Writer.WriteSequenceNr | imap/client_writer.cc:176-184 | Appends the number, `*` for 2^32-1, and refuses zero |
| SequenceText.Writer.WriteSequence | imap/client_writer.cc:185-194 | Appends one number or a range |
| SequenceText.Writer.WriteSequenceSet | imap/client_writer.cc:195-207 | Appends the comma-separated items; fails exactly on an empty list or a zero |
| OrderText.OrderTextSafe | imap/client_writer.cc:208-215 | In every behaviour, the text of any UID STORE or UID EXPUNGE, read back by the server-side grammar, denotes exactly the UIDs of the client, each of them delivered under the UIDVALIDITY in force |
| SelfCheck.AcceptsExactly | imap/server_parser.rl:552-588 | A command sequence passes if and only if the history permits each command: nothing behind LOGOUT, one LOGIN before mailbox commands, message commands only in an open mailbox, STORE, EXPUNGE and their UID forms only if the latest SELECT, EXAMINE or CLOSE is a SELECT |
| SelfCheck.AcceptedIsPath | imap/server_parser.rl:140-208 | Every sequence that passes is a path in the state diagram of section 3 of RFC 3501, with message-changing commands only in the selected state opened by SELECT |
| SelfCheck.PathAccepted | imap/server_parser.rl:572-588 | Conversely every path passes, except for writes behind EXAMINE and the two commands the grammar leaves out |
| SelfCheck.DownloadPasses | imap/client_writer.cc:85-91 | No command of any download is refused by the check |
| SelfCheck.Parser.constructor | imap/server_parser.rl:572-588 | The check starts behind an OK greeting, in the machine for the not authenticated state |
| SelfCheck.Parser.EndOfCommand | imap/server_parser.rl:140-180 | The action at the end of a command assigns state and read-only flag, and refuses a write in a read-only mailbox |
| SelfCheck.Parser.Read | imap/server_parser.rl:185-208 | A command outside the current machine is refused; otherwise the machine of the new state follows |
| Literal.LiteralRoundTrip | imap/common.rl:91-123 | Under every chunking, the raw reader yields exactly the written string and hands on exactly what follows, if and only if the string has no NUL; otherwise it fails |
| Literal.ConversionRefines | imap/literal_converter.rl:34-73 | Under every chunking, conversion replaces each CRLF by LF and keeps every other octet for literals with a good ending; a NUL or a bare LF is rejected |
| Literal.ConversionExact | imap/literal_converter.rl:34-46 | For a literal without NUL and bare LF, conversion is right under every chunking if and only if the ending is CRLF, two octets other than CR and LF, or a single CR at the start or right behind CRLF |
| Literal.BadEndingLoses | imap/literal_converter.rl:34-46 | With any other ending, read in one chunk, octets are lost |
| Literal.OnlyLiterals | imap/common.rl:91-123 | A literal is accepted only in its form: an announcement of one to ten digits that fits 32 bits, that many octets without NUL, and under conversion without a bare LF |
| Literal.StepAt | imap/common.rl:103-123 | One octet of an announced literal keeps the position invariant, with the octets still to come as measure |
| Literal.LiteralReader.Head | imap/common.rl:91-115 | One octet of the announcement, with the 32-bit conversion of the number |
| Literal.LiteralReader.Raw | imap/common.rl:103-123 | One octet of a raw literal |
| Literal.LiteralReader.Convert | imap/literal_converter.rl:34-73 | One octet of a converted literal, entering and finishing actions in the order of the machine |
| Literal.LiteralReader.Read | imap/client_parser.rl:1142-1154 | One call reads a chunk octet by octet and flushes and reopens open runs at its end |
| Base64.Base64RoundTrip | mime/base64_decoder.rl:60-145 | Decoding inverts encoding for every non-empty octet string, under every chunking and for every initial value of the accumulator |
| Base64.Base64Accepts | mime/base64_decoder.rl:121-145 | A text is decoded if and only if it consists of whole groups of four, padded only at the end |
| Base64.DecoderObject.FinishUnit | mime/base64_decoder.rl:70-79 | Takes three octets off the accumulator, highest first |
| Base64.DecoderObject.FinishPad1 | mime/base64_decoder.rl:80-90 | Takes two octets behind one pad |
| Base64.DecoderObject.FinishPad2 | mime/base64_decoder.rl:91-98 | Takes one octet behind two pads |
| Base64.DecoderObject.Read | mime/base64_decoder.rl:121-145 | One octet, with actions in the order of the machine |
| QDecoder.QRoundTrip | mime/q_decoder.rl:101-118 | Decoding a non-empty list of legally written octets (literal, underscore, escape with hex digits of either case), read in one call, yields these octets whatever the buffer held |
| QDecoder.QAccepts | mime/q_decoder.rl:101-118 | A text is accepted if and only if it is a non-empty list of legally written octets |
| QDecoder.EscapeAny | mime/q_decoder.rl:106-112 | Every octet has a legal way of writing |
| QDecoder.DecoderObject.PushHex | mime/q_decoder.rl:42-64 | Shifts a hex digit of either case into the 8-bit value |
| QDecoder.DecoderObject.Read | mime/q_decoder.rl:101-118 | One octet, with actions in the order of the machine |
| HeaderDecoder.HeaderRefines | mime/header_decoder.rl:269-361 | For every header whose bodies mix plain words, with `=` in them, and encoded-words, folded or not, every charset conversion and ending policy: one callback per field, in order, with the body as the decoder renders it |
| HeaderDecoder.HeaderFollowsRule | mime/header_decoder.rl:269-361 | In regular fields the callback sees what section 6.2 of RFC 2047 asks for: white space between encoded-words dropped, folded lines joined, every other gap kept |
| HeaderDecoder.KeptExact | mime/header_decoder.rl:306-361 | Before each item, and for each line end, the decoder keeps of the white space what the rule asks for if and only if the place is regular |
| HeaderDecoder.PlainWordExact | mime/header_decoder.rl:306-316 | A word of letters and `=` that opens no encoded-word is called back as it stands if and only if it holds no two `=` in a row; with them the header is refused |
| HeaderDecoder.DoubleEqualsRefused | mime/header_decoder.rl:306-316 | Two `=` in a row are refused behind whatever stands before them |
| HeaderDecoder.BlankLineRefused | mime/header_decoder.rl:351-361 | A blank further line of a field is refused |
| HeaderDecoder.AcceptedOctets | mime/header_decoder.rl:146-155 | In everything accepted: octets below 128, NUL only as the end, CR only before LF, no CR under the LF policy, and under the CRLF policy no LF but behind CR or as the end |
| HeaderDecoder.EncodedWordExact | mime/header_decoder.rl:227-235 | An encoded-word without a language is accepted if and only if its charset is a token, its encoding is Q or B in either case, and its text is one that the decoder of that encoding accepts; otherwise the header is refused |
| HeaderDecoder.NameExact | mime/header_decoder.rl:256-275 | A field is accepted up to its body if and only if it begins with a name of printable letters, `:` and a space |
| HeaderDecoder.ReadEncoded | mime/header_decoder.rl:227-235 | A whole encoded-word, in either encoding, appends its converted text and leaves no trace in the other buffers |
| HeaderDecoder.ReadPiece | mime/header_decoder.rl:277-361 | White space, line end and item behind any item append what the decoder keeps and what the item means |
| HeaderDecoder.NextField | mime/header_decoder.rl:337-350 | The callback runs when the line behind a field starts with a field name |
| HeaderDecoder.DecoderObject.InsertTrailSpace | mime/header_decoder.rl:126-133 | Appends the kept white space, if any |
| HeaderDecoder.DecoderObject.OctetEncoded | mime/header_decoder.rl:227-235 | One octet inside an encoded-word |
| HeaderDecoder.DecoderObject.OctetBody | mime/header_decoder.rl:277-336 | One octet of a body outside encoded-words, with the `=` that opens none |
| HeaderDecoder.DecoderObject.OctetLines | mime/header_decoder.rl:337-361 | One octet of a field name, a line ending or a fold |
| HeaderDecoder.DecoderObject.Read | mime/header_decoder.rl:436-454 | Reads a text in one call; fails exactly if the machine refuses an octet |
| Maildir.CutKeepsMessage | maildir/maildir.cc:178-195 | A cut behind any of link, fsync and unlink leaves the message under at least one name and touches no other entry; the whole move leaves only the new name |
| Maildir.PowerCutKeepsMessage | maildir/maildir.cc:189-192 | If the power fails, the message remains, provided that its name in tmp was on the medium or the fsync has been done |
| Maildir.FsyncNeeded | maildir/maildir.cc:189-192 | Without the fsync between link and unlink it may be lost |
| Maildir.NamesNeverRepeat | maildir/maildir.cc:97-128 | All names made by one process are distinct, with equal times and random numbers too, whatever calls come between |
| Maildir.NameDetermines | maildir/maildir.cc:91-112 | Time, process, delivery number, random number and the replaced host name can be read off a name |
| Maildir.HostConcat | maildir/maildir.cc:104-112 | In the host name each / and : is replaced where it stands |
| Maildir.HostPlain | maildir/maildir.cc:104-112 | A host name without / and : stands as it is |
| Maildir.NameClean | maildir/maildir.cc:104-112 | A name has neither / nor : |
| Maildir.FlagSuffixExact | maildir/maildir.cc:145-167 | Flags are accepted if and only if all are known, and the suffix is the only strictly ascending text with the same letters |
| Maildir.NewName | maildir/maildir.cc:174-192 | A message moved to new is, as the one new entry, under its unique name |
| Maildir.CurName | maildir/maildir.cc:145-192 | A message moved to cur is, as the one new entry, under its unique name, `:2,` and its flags in ascending order, each once; with an unknown flag nothing happens |
| Maildir.EntriesInjective | maildir/maildir.cc:183-187 | An entry made for a unique name and flags tells both |
| Maildir.ServerFlagsAccepted | copy/client.cc:557-578 | The flags of a FETCH response are always accepted, and the suffix holds exactly their letters |
| Maildir.Maildir.CreateName | maildir/maildir.cc:114-128 | Makes a name with the next delivery number, or refuses while a name is not delivered |
| Maildir.Maildir.SetFlags | maildir/maildir.cc:145-167 | Stores the sorted, duplicate-free flags or fails and changes nothing |
| Maildir.Maildir.MoveOut | maildir/maildir.cc:178-195 | Performs link, fsync and unlink up to a failure, to the entry with the flags in its name; forgets name and flags only behind all three |
| Maildir.Maildir.ToCur | maildir/maildir.cc:169-173 | Flags first, then the move to cur |
| Maildir.Maildir.ToNew | maildir/maildir.cc:174-177 | The move to new |
| Maildir.Maildir.Clear | maildir/maildir.cc:197-201 | Forgets name and flags |
| Delivery.BodyInner | copy/client.cc:525-536 | At the start of a full body the client throws exactly when the maildir does, and both agree on the pending name |
| Delivery.BodyEnd | copy/client.cc:537-556 | At the end of a full body, for every disk: the maildir never refuses the flags, the client throws exactly when the maildir does, nothing is linked exactly if the first system call does not go through, and else the file is at a destination in new or cur where there was none |
| Delivery.DeliveredName | copy/client.cc:537-578 | The name that a message gets, written out, for the flags of its response: without ANSWERED, SEEN, FLAGGED and DRAFT the one new entry is the unique name in new, otherwise it is in cur the unique name, `:2,` and the letters of these flags, ascending, each once |
| Delivery.DeliveredNamesInjective | maildir/maildir.cc:183-187 | Two messages delivered under one entry have the same unique name and the same flags |
| Files.RemovedHaveFiles | maildir/maildir.cc:178-195 | In every behaviour of the program together with its maildir and the processes that read it, each message that a UID EXPUNGE of ours removed has a file of its own in new or cur |
| Files.MoveKeeps | copy/client.cc:537-556 | The end of a body keeps every delivered message in a file of its own, and the file being written apart from them |
| ClientObject.ClientApp.constructor | copy/client.cc:48-75 | Fields at their initial values, or taken from the journal file |
| ClientObject.ClientApp.ReadJournal | copy/client.cc:85-97 | Takes over UIDVALIDITY, UIDs and mailbox and asks for a cleanup |
| ClientObject.ClientApp.WriteJournal | copy/client.cc:98-107 | The record written, in canonical intervals, denotes the UIDs held, under the mailbox of the options; nothing without UIDs or without deletion |
| ClientObject.ClientApp.AsyncCommand | imap/client_base.cc:53-61 | Stores the command and its continuation under the next number |
| ClientObject.ClientApp.AsyncStoreUids | copy/client.cc:357-365 | UID STORE of the UIDs held; throws without UIDs |
| ClientObject.ClientApp.AsyncUidOrSimpleExpunge | copy/client.cc:375-390 | UID EXPUNGE of the UIDs held with UIDPLUS, else EXPUNGE |
| ClientObject.ClientApp.AsyncLoginUser | copy/client.cc:285-301 | LOGIN, forgetting capabilities and the message count, unless the capabilities forbid it |
| ClientObject.ClientApp.Download | copy/client.cc:164-186 | The download coroutine, resumed at any point |
| ClientObject.ClientApp.FetchHeaders | copy/client.cc:191-201 | The header coroutine, resumed at any point |
| ClientObject.ClientApp.ListMailboxes | copy/client.cc:216-231 | The list task, continued at any point |
| ClientObject.ClientApp.DoPostLogin | copy/client.cc:249-256 | Cleanup of a journal first, else the task |
| ClientObject.ClientApp.FinishCleanup | copy/client.cc:147-152 | Clears the UIDs, returns to the mailbox of the options and starts the task on it |
| ClientObject.ClientApp.TimerCallback | copy/client.cc:232-248 | The first firing asks for capabilities or logs in |
| ClientObject.ClientApp.TaggedStatusEnd | imap/client_base.cc:149-169 | Runs the continuation of an OK for a known number; throws otherwise |
| ClientObject.ClientApp.SignalCallback | copy/client.cc:109-133 | The first signal ends the session, the second throws |
| ClientObject.ClientApp.StatusCodeUidValidity | copy/client.cc:484-494 | A different UIDVALIDITY clears the UIDs |
| ClientObject.ClientApp.DataFetchBegin | copy/client.cc:496-509 | Forgets the last UID while fetching |
| ClientObject.ClientApp.Uid | copy/client.cc:579-586 | Remembers the UID while fetching |
| ClientObject.ClientApp.SectionEmpty | copy/client.cc:517-524 | Marks a full body, which a header run refuses |
| ClientObject.ClientApp.BodySectionInner | copy/client.cc:525-536 | Opens a file for a full body |
| ClientObject.ClientApp.BodySectionEnd | copy/client.cc:537-556 | Closes the file and moves it out of tmp |
| ClientObject.ClientApp.DataFetchEnd | copy/client.cc:510-516 | Pushes the last UID, in every state; throws without one |
| ClientObject.ClientApp.Dispatch | copy/client.cc:449-586 | Any event, in any state, changes the object as the function that all theorems about runs are stated for |

## Left out

- Sockets, TLS, ASIO scheduling and the write queue (net/*): a command counts as received once it is sent, and the read
  loop and timers appear only as the events they lead to.
- The greeting and most of the grammar of imap/client_parser.rl: shallow alternatives. Of FETCH responses the order of
  UID and BODY attributes is kept, other attributes are left out.
- The syntax of commands in the self-check other than sequence-sets: a mailbox name that its grammar refuses makes the
  writer throw, which is one more way for a run to be cut off.
- Safety.NothingLost: is about removals by UID EXPUNGE; a plain EXPUNGE, sent without UIDPLUS, also removes what other
  clients flagged. It is in the command language and in the conservation theorems.
- Conservation.ConservationAtCut: the messages of one run and of the journal it read; a process that is killed before its
  destructor has run writes no journal, and later runs do not delete its messages.
- ClientObject.ClientApp.DataFetchBegin: the flags that the source clears here are those that `Delivery.BodyEnd` takes as the
  flags of the response; the simulated error is left out.
- Files.RemovedHaveFiles: the number of a file stands for its contents.
- Tags.TagsNeverRepeat: the counter is unbounded; the wrap of a machine word after all its values is not modelled.
- Maildir.NamesNeverRepeat: the delivery counter is unbounded in the same way.
- Maildir.PowerCutKeepsMessage: on a power cut each directory entry is as it was seen or as it was last synchronised; file
  contents are not modelled.
- HeaderDecoder.HeaderRefines: language suffixes of charsets, input in several calls and reuse behind an error are outside;
  the state behind `*` in a charset is a dead end of the model.
- QDecoder.QRoundTrip: one call only; the decoder with a sentinel is outside.
- Base64.Base64RoundTrip: without a sentinel.
- Buffers and the octets of a chunk in the header and Q decoder objects are values that the methods reassign; where a run
  starts in the chunk is modelled by index only in `Literal.LiteralReader`.
- The client object numbers its commands and keeps of the maildir only whether a name is pending; `Session.RunCoupled`
  connects the numbers to tags, `Delivery.BodyEnd` the pending name to files.
- Serialization format of the journal, charset conversion (any function), host name and clock (parameters).
- Options, logging, fetch timer, header printer, sanitizers, language tags, the simulated error: configuration and output.
