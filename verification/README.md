# Checksum, codecs and RPC of the DGI services

A Dafny model of three parts of the system, with proofs of what each is for.

**The checksum** (`Crc32Spec`, `Crc32Table`, `Crc32`, `Crc32Theory`). The drivers' chained CRC-32 takes eight bytes a turn
through eight 256-entry tables and finishes byte by byte. The reference is the bit-at-a-time reflected CRC of section 8 of
RFC 1952. The routine is modelled imperatively in both byte orders; the tables are the source's literals, each tied to bit
steps. Both forms are proved to compute the reference on every buffer, and from linearity and invertibility of the step
follow chaining, combination, residue, bijection and burst-detection laws.

**The struct codecs and the RPC path** (`ThriftWire`, `ThriftEncoding`, `ThriftCodec`, `ThriftLaws`,
`ThriftTolerance`, `ThriftMessage`, `ThriftProtocol`, `DgiCommonTypes`, `DgiSubSystemTypes`, `DgiFolderLockTypes`,
`DgiSecureEraseTypes`, `DgiSecureEraseResponse`, `DgiSecureErase`, `DgiBankingTypes`, `DgiBankingArgs`,
`DgiBankingResults`, `DgiBanking`). Streams are bytes in the Thrift Binary protocol encoding, which the servers use. A
struct's schema is a value; one recursive reader `ReadVal` and one writer `Write`, parameterised by the schema, are
the specification of every generated `read` and `write`. The generated members themselves are methods of classes that
work in place on their fields, flags and vectors, each proved to do exactly what the specification says, down to the
32-bit byte count it returns. Each class's contracts also say in plain numbers and by member name which bytes are
written and what is read from such bytes, so that field ids, type codes, member order and flags do not rest on a
schema or on `Value`. The laws about the specification hold for every schema: what any well-formed field stream means,
which changes to a stream do not matter, round trips over whatever the target held before and in front of whatever
follows. On top come the client's send and recv and the processor's dispatch, built from those objects; one whole
exchange, on values and on the objects; and whole runs of the server.

**The concurrent client** (`ConcurrentClient`, `ConcurrentProgress`). Many callers share a connection, and a caller that reads somebody else's
header parks it and waits. The recv loop is a transition system in which any number of callers and the server interleave
freely and the server answers in any order. The library's synchronisation object is an assumption, stated at the head of
the module. Safety is proved of every state of every run, and so is that from every such state the run can go on until
every caller has returned.

Conventions: a C++ exception is the outcome `Thrown`, `Failed`, `Lost` or `Closed`; enums are carried as their 32-bit value
and strings as bytes; `Stamp` is a value with all its presence flags set, and `Equal` is the generated `operator==`, which
ignores the flags.

One behaviour of the code stands out: `recv` of the plain client, having skipped a reply of the wrong type or name, goes on
reading into whatever follows. `RecvTakesOneMessage` says exactly after which messages it stops at the end.

## Model

| member | source | states |
|---|---|---|
| Crc32Table.LookupIsSteps | client/drivers/CommonDrv/DgiCRC32.c:7-291 | every one of the 2048 literals is its index run through 8 bit steps per row: entry i of row k is i after 8(k+1) steps |
| Crc32Table.LookupRecurrence | client/drivers/CommonDrv/DgiCRC32.c:7-291 | each row is the row before it moved on by one zero byte |
| Crc32.FeedLowBits | client/drivers/CommonDrv/DgiCRC32.c:317-326 | adding a whole word to the register and stepping equals feeding its low bits one at a time |
| Crc32.BlockLittleFeeds | client/drivers/CommonDrv/DgiCRC32.c:317-326 | one turn of the block loop equals feeding the 64 bits of its eight bytes |
| Crc32.TailByteFeeds | client/drivers/CommonDrv/DgiCRC32.c:334-335 | one turn of the byte loop equals feeding the 8 bits of its byte |
| Crc32.DgiCRC32_8Bytes | client/drivers/CommonDrv/DgiCRC32.c:299-338 | for every buffer, length and previous value the little-endian routine returns the bit-at-a-time CRC of the first length bytes |
| Crc32.SwapReversesBytes | client/drivers/CommonDrv/DgiCRC32.c:294-296 | the swap reverses the order of the four bytes |
| Crc32.BlocksAgree | client/drivers/CommonDrv/DgiCRC32.c:305-326 | the two branches of the block step agree on words loaded in opposite byte orders |
| Crc32.DgiCRC32_8BytesBigEndian | client/drivers/CommonDrv/DgiCRC32.c:299-338 | the big-endian routine returns the same bit-at-a-time CRC, so the two builds agree on every message |
| Crc32Theory.ChainingIsWhole | client/drivers/CommonDrv/DgiCRC32.c:300-337 | feeding a message in any pieces through previousCrc32 gives the CRC of the whole |
| Crc32Theory.PastZerosIsLinear | client/drivers/CommonDrv/DgiCRC32.c:300-337 | the operator of n zero bytes is linear |
| Crc32Theory.Combination | client/drivers/CommonDrv/DgiCRC32.c:300-337 | the CRC of a concatenation from the CRCs of the parts and the length of the second, whatever values the parts were started from |
| Crc32Theory.Residue | client/drivers/CommonDrv/DgiCRC32.c:300-337 | a message followed by its CRC, low byte first, always has CRC 0x2144DF1C |
| Crc32Theory.PreviousBijection | client/drivers/CommonDrv/DgiCRC32.c:300-337 | for a fixed message every result comes from exactly one previous value, which the inverse register gives |
| Crc32Theory.FourBytesBijection | client/drivers/CommonDrv/DgiCRC32.c:300-337 | in any fixed surroundings every result comes from exactly one choice of four consecutive bytes |
| Crc32Theory.BurstDetected | client/drivers/CommonDrv/DgiCRC32.c:300-337 | different messages of one length whose bits agree outside a window of 32, at any bit position, have different CRCs |
| Crc32Theory.HalfByteAgrees | client/drivers/CommonDrv/DgiCRC32.c:10-43 | the nibble method on the sixteen entries the table's comment names computes the same CRC |
| Crc32Theory.HalfByteEntries | client/drivers/CommonDrv/DgiCRC32.c:10-43 | the sixteen entries that the comment names are these literals |
| Crc32Theory.CheckValue | client/drivers/CommonDrv/DgiCRC32.c:300-337 | the checksum of the digits 1 to 9 in ASCII is 0xCBF43926, the published check value of this CRC |
| ThriftWire.SkipEncode | thrift/cpp/dgiCommonTypes_types.cpp:572-612 | skipping passes over exactly one well-formed value of its type, however deeply nested and whatever follows |
| ThriftEncoding.SkippedIsValue | thrift/cpp/dgiCommonTypes_types.cpp:572-612 | conversely, whatever a skip passes over is the encoding of a well-formed value of the type |
| ThriftEncoding.SkippedWidths | thrift/cpp/dgiCommonTypes_types.cpp:572-612 | the widths that a skip passes over, by type code: 2 and 3 one byte, 6 two, 8 four, 4 and 10 eight |
| ThriftEncoding.NumberInBytes | thrift/cpp/dgiCommonTypes_types.cpp:148-164 | 32-bit numbers travel most significant byte first, negative ones in two's complement |
| ThriftEncoding.SizeInBytes | thrift/cpp/DgiBanking.cpp:766-766 | sizes travel as their low 32 bits, most significant byte first |
| ThriftCodec.ReadMeaning | thrift/cpp/dgiSecureEraseTypes_types.cpp:177-234 | on every well-formed value, over any old contents and in front of any bytes, the reader ends at the end of the value and holds its meaning merged into the old contents |
| ThriftLaws.LeafMeaning | thrift/cpp/dgiBankingTypes_types.cpp:399-446 | each leaf takes its last well-typed occurrence through all repetitions of the structs around it, a repeated list is read afresh, leaves never mentioned keep their value, and each flag says whether its leaf was ever mentioned |
| ThriftLaws.MemberMeaning | thrift/cpp/dgiCommonTypes_types.cpp:551-618 | a member and its flag depend on the member's own occurrences only |
| ThriftLaws.ReaderTolerance | thrift/cpp/dgiSecureEraseTypes_types.cpp:307-366 | streams that differ only in how the members' occurrences are interleaved with each other and with ignored fields read the same |
| ThriftLaws.IgnoredFieldsChangeNothing | thrift/cpp/dgiSecureEraseTypes_types.cpp:177-234 | inserting fields with unknown ids, or known ids and the wrong type, changes nothing |
| ThriftLaws.IgnoredIffNoTarget | thrift/cpp/dgiSecureEraseTypes_types.cpp:177-234 | the ignored fields are exactly those for which no member has both the id and the wire type |
| ThriftLaws.PermutedFieldsChangeNothing | thrift/cpp/dgiSecureEraseTypes_types.cpp:307-366 | permuting fields whose ids each occur once changes nothing |
| ThriftTolerance.DeepTolerance | thrift/cpp/dgiSecureEraseTypes_types.cpp:307-366 | streams that differ, at any depth of nested structs and list elements, only in how occurrences are interleaved with each other and with ignored fields read the same |
| ThriftTolerance.IgnoredAnywhere | thrift/cpp/dgiSecureEraseTypes_types.cpp:307-366 | taking out every ignored field, at every level and in every list element, changes nothing in what a read leaves and where it stops |
| ThriftTolerance.TrimLeavesStored | thrift/cpp/dgiSecureEraseTypes_types.cpp:307-366 | after that, every field that is left, at every level, is one the reader stores |
| ThriftTolerance.PermutedSaysSame | thrift/cpp/dgiSecureEraseTypes_types.cpp:307-366 | permuting fields whose ids each occur once is one of the differences that a reader does not notice at any depth |
| ThriftLaws.RoundTripOver | thrift/cpp/DgiBanking.cpp:704-779 | with guarded members too, reading what was written over any old contents leaves the written members laid over the old ones, and exactly the bytes that follow |
| ThriftLaws.RoundTrip | thrift/cpp/dgiFolderLockTypes_types.cpp:581-666 | without guarded members, whatever the target held, it ends up equal to the written value, all flags set at every level, with exactly the following bytes left |
| ThriftLaws.StampEqual | thrift/cpp/dgiFolderLockTypes_types.h:298-305 | operator== does not see presence flags |
| ThriftLaws.EqualIffSameMembers | thrift/cpp/dgiCommonTypes_types.h:95-102 | two values are equal by operator== if and only if they differ in presence flags only |
| ThriftLaws.WritableIffWellFormed | thrift/cpp/DgiBanking.cpp:757-779 | the values whose layout is well-formed are exactly those whose sizes fit 32 bits, which the round trips ask for |
| ThriftLaws.WrittenIdsOccurOnce | thrift/cpp/dgiBankingTypes_types.cpp:280-324 | a writer emits each field id once, so what it emits may be reordered |
| DgiCommonTypes.DgiResult.Read | thrift/cpp/dgiCommonTypes_types.cpp:97-146 | the field loop leaves the object, the stream and the byte count as the reader of its schema says, or throws where that fails; the count is that of the bytes read, modulo 2^32; from the bytes of field 1 as a 32-bit number and field 2 as a string, status, description and both flags hold what those bytes say |
| DgiCommonTypes.DgiResult.Write | thrift/cpp/dgiCommonTypes_types.cpp:148-164 | appends the bytes of its schema's writer, which are the headers [8,0,1] and [11,0,2] with status and description behind them and a stop, and returns the number of bytes appended, modulo 2^32 |
| DgiSubSystemTypes.SubSystemStateResponse.ReadReport | thrift/cpp/dgiCommonTypes_types.cpp:590-602 | clear, resize and the counted loop replace the old list by the elements read afresh |
| DgiSubSystemTypes.SubSystemStateResponse.Read | thrift/cpp/dgiCommonTypes_types.cpp:551-618 | as for DgiResult, with the nested result merged in place and a list of results beside a flag |
| DgiSubSystemTypes.SubSystemStateResponse.Write | thrift/cpp/dgiCommonTypes_types.cpp:620-648 | as for DgiResult: the headers [12,0,1], [2,0,2] and [15,0,3] with the members behind them |
| DgiFolderLockTypes.FLockObject.Read | thrift/cpp/dgiFolderLockTypes_types.cpp:91-148 | as for DgiResult |
| DgiFolderLockTypes.FLockObject.Write | thrift/cpp/dgiFolderLockTypes_types.cpp:150-170 | as for DgiResult |
| DgiFolderLockTypes.FLockInfo.Read | thrift/cpp/dgiFolderLockTypes_types.cpp:355-404 | as for DgiResult, with the nested object merged in place and the enum cast |
| DgiFolderLockTypes.FLockInfo.Write | thrift/cpp/dgiFolderLockTypes_types.cpp:406-422 | as for DgiResult |
| DgiFolderLockTypes.FLockListResponse.ReadFlocks | thrift/cpp/dgiFolderLockTypes_types.cpp:612-624 | clear, resize and the counted loop replace the old list by the elements read afresh, each in place in its own object |
| DgiFolderLockTypes.FLockListResponse.Read | thrift/cpp/dgiFolderLockTypes_types.cpp:581-640 | as for DgiResult, through three levels of nesting |
| DgiFolderLockTypes.FLockListResponse.Write | thrift/cpp/dgiFolderLockTypes_types.cpp:642-666 | as for DgiResult; a list size above 32 bits is cut as the cast does |
| DgiFolderLockTypes.FLockListResponseRoundTrip | thrift/cpp/dgiFolderLockTypes_types.cpp:581-666 | every list reply with sizes below 2^32, read over any old contents, equals what was written, flagged at every level, with exactly the rest left |
| DgiSecureEraseTypes.EraseObject.Read | thrift/cpp/dgiSecureEraseTypes_types.cpp:59-108 | as for DgiResult |
| DgiSecureEraseTypes.EraseObject.Write | thrift/cpp/dgiSecureEraseTypes_types.cpp:110-126 | as for DgiResult |
| DgiSecureEraseTypes.EraseObjectError.Read | thrift/cpp/dgiSecureEraseTypes_types.cpp:177-234 | as for DgiResult, with the nested object merged in place and the enum cast |
| DgiSecureEraseTypes.EraseObjectError.Write | thrift/cpp/dgiSecureEraseTypes_types.cpp:236-256 | as for DgiResult |
| DgiSecureEraseResponse.EraseResponse.Read | thrift/cpp/dgiSecureEraseTypes_types.cpp:307-366 | as for DgiResult, with the list replaced by elements read afresh |
| DgiSecureEraseResponse.EraseResponse.Write | thrift/cpp/dgiSecureEraseTypes_types.cpp:368-392 | as for DgiResult |
| DgiSecureErase.EraseFilesArgs.Read | thrift/cpp/DgiSecureErase.cpp:16-67 | the server's reader of the request, as for DgiResult |
| DgiSecureErase.EraseFilesPargs.Write | thrift/cpp/DgiSecureErase.cpp:96-116 | the client's writer of the request over the caller's vector, as for DgiResult |
| DgiSecureErase.EraseFilesAsymmetry | thrift/cpp/DgiSecureErase.cpp:16-116 | what the client writes for a list of any length below 2^32 the server reads as an equal list, over any old contents, consuming exactly the bytes written |
| DgiSecureErase.SendEraseFiles | thrift/cpp/DgiSecureErase.cpp:16-116 | the same on the objects, and the byte count the reader returns is the one the writer returned |
| DgiBankingTypes.ValidDate.Read | thrift/cpp/dgiBankingTypes_types.cpp:35-82 | as for DgiResult |
| DgiBankingTypes.ValidDate.Write | thrift/cpp/dgiBankingTypes_types.cpp:84-100 | as for DgiResult |
| DgiBankingTypes.BankCard.Read | thrift/cpp/dgiBankingTypes_types.cpp:175-278 | as for DgiResult, with nine members and the date among them merged in place |
| DgiBankingTypes.BankCard.Write | thrift/cpp/dgiBankingTypes_types.cpp:280-324 | as for DgiResult |
| DgiBankingTypes.RespBankCard.Read | thrift/cpp/dgiBankingTypes_types.cpp:399-446 | as for DgiResult, with two nested structs merged in place |
| DgiBankingTypes.RespBankCard.Write | thrift/cpp/dgiBankingTypes_types.cpp:448-464 | as for DgiResult |
| DgiBankingTypes.MonthOfReplyCard | thrift/cpp/dgiBankingTypes_types.cpp:399-446 | through two levels of repeated nested structs, the month of a reply's card is the last one the stream has for it, or the old one |
| DgiBankingArgs.CardArgs.Read | thrift/cpp/DgiBanking.cpp:16-63 | as for DgiResult, with the card merged in place |
| DgiBankingArgs.CardArgs.Write | thrift/cpp/DgiBanking.cpp:88-104 | as for DgiResult, over the card that the caller's pointer names |
| DgiBankingArgs.NumberArgs.Read | thrift/cpp/DgiBanking.cpp:422-469 | as for DgiResult |
| DgiBankingArgs.NumberArgs.Write | thrift/cpp/DgiBanking.cpp:494-510 | as for DgiResult |
| DgiBankingArgs.SidArgs.Read | thrift/cpp/DgiBanking.cpp:625-664 | as for DgiResult |
| DgiBankingArgs.SidArgs.Write | thrift/cpp/DgiBanking.cpp:685-697 | as for DgiResult |
| DgiBankingResults.CardList.Read | thrift/cpp/DgiBanking.cpp:726-739 | clear, resize and the counted loop replace the old cards by cards read afresh, each in place in its own object |
| DgiBankingResults.CardList.Write | thrift/cpp/DgiBanking.cpp:765-773 | appends the size and every card, and returns the number of bytes modulo 2^32 |
| DgiBankingResults.CallResult.Read | thrift/cpp/DgiBanking.cpp:704-755 | as for DgiResult, through the pointer to the caller's return object, whichever of the three types that has |
| DgiBankingResults.CallResult.Write | thrift/cpp/DgiBanking.cpp:757-779 | as for DgiResult: the member if its flag is set, and nothing but the stop if not |
| ThriftMessage.HeaderRoundTrip | thrift/cpp/DgiBanking.cpp:1048-1070 | a message header that was written is read back with its name, type and sequence id, leaving exactly the rest |
| ThriftMessage.MessageInBytes | thrift/cpp/DgiBanking.cpp:1051-1051 | a header is 0x80, 1, 0, the message type, the name behind its size, and the sequence id |
| ThriftMessage.ExceptionRoundTrip | thrift/cpp/DgiBanking.cpp:1071-1077 | an application exception arrives with its text and kind |
| DgiBanking.NamesDiffer | thrift/cpp/DgiBanking.h:684-691 | no two calls share a name, so the dispatch map has one entry a call |
| DgiBanking.NamesInBytes | thrift/cpp/DgiBanking.h:684-691 | the five names, letter by letter |
| DgiBanking.DgiBankingProcessor.constructor | thrift/cpp/DgiBanking.h:684-691 | the map knows each call under its name and nothing else |
| DgiBanking.DgiBankingProcessor.Process | thrift/cpp/DgiBanking.cpp:1355-1407 | the args object's reader, the handler and the result object's guarded writer together do what the schemas say: the handler sees the arguments read over defaults, its state moves once, and exactly one reply, or one exception if it threw, is appended |
| DgiBanking.DgiBankingProcessor.DispatchCall | thrift/cpp/DgiBanking.cpp:1336-1353 | a known name goes to its process function, an unknown one has its body skipped and is answered by an exception under its own name |
| DgiBanking.DgiBankingClient.Send | thrift/cpp/DgiBanking.cpp:1048-1061 | the header and the args object's writer over the caller's card and texts append one call message with sequence id 0 |
| DgiBanking.DgiBankingClient.Receive | thrift/cpp/DgiBanking.cpp:1063-1099 | follows every branch of recv: exception, wrong type, wrong name, missing result; on success the caller's return object holds what was read over its old contents |
| DgiBanking.RpcTransparency | thrift/cpp/DgiBanking.cpp:1042-1099 | for every request and handler, send, dispatch and recv give exactly the value the handler produced, or an application exception with its text if and only if it threw, with both streams left exactly behind the messages |
| DgiBanking.Exchange | thrift/cpp/DgiBanking.cpp:1042-1099 | the same on the objects: send, the processor's turn and recv chained leave in the caller's return object what the handler made of the caller's arguments, or raise its exception if and only if it threw, move the handler's state once, and consume both messages exactly |
| DgiBanking.RecvTakesOneMessage | thrift/cpp/DgiBanking.cpp:1071-1092 | recv consumes exactly one message if and only if that is an exception, or a reply under the expected name |
| DgiBanking.AddCardInBytes | thrift/cpp/DgiBanking.cpp:1042-1099 | a message with the bytes of the name AddCard and of its arguments is what the client writes for AddCard, runs the handler with AddCard and those arguments, and is answered by the bytes of that name with the result as field 0, or of the exception |
| DgiBanking.DeleteCardInBytes | thrift/cpp/DgiBanking.cpp:1101-1158 | a message with the bytes of the name DeleteCard and of its arguments is what the client writes for DeleteCard, runs the handler with DeleteCard and those arguments, and is answered by the bytes of that name with the result as field 0, or of the exception |
| DgiBanking.DeleteCardByNumberInBytes | thrift/cpp/DgiBanking.cpp:1160-1217 | a message with the bytes of the name DeleteCardByNumber and of its arguments is what the client writes for DeleteCardByNumber, runs the handler with DeleteCardByNumber and those arguments, and is answered by the bytes of that name with the result as field 0, or of the exception |
| DgiBanking.GetCardsInBytes | thrift/cpp/DgiBanking.cpp:1219-1275 | a message with the bytes of the name GetCards and of its arguments is what the client writes for GetCards, runs the handler with GetCards and those arguments, and is answered by the bytes of that name with the result as field 0, or of the exception |
| DgiBanking.GetCardInBytes | thrift/cpp/DgiBanking.cpp:1277-1334 | a message with the bytes of the name GetCard and of its arguments is what the client writes for GetCard, runs the handler with GetCard and those arguments, and is answered by the bytes of that name with the result as field 0, or of the exception |
| DgiBanking.UnknownNameInBytes | thrift/cpp/DgiBanking.cpp:1339-1350 | a message under any other name runs nothing and is answered under that name by an exception of kind 1 with the text letter by letter |
| DgiBanking.MissingResultInBytes | thrift/cpp/DgiBanking.cpp:1094-1098 | a reply without a result makes recv throw an exception of kind 5 that names the call, letter by letter |
| DgiBanking.RequestIsAcceptable | thrift/cpp/DgiBanking.cpp:1048-1061 | every request a client can write is one of the calls that the whole-run theorems are about |
| DgiBanking.ServeOneCall | thrift/cpp/DgiBanking.cpp:1336-1407 | one call consumes exactly its message and emits exactly one well-formed answer with its name and sequence id |
| DgiBanking.ServeRun | thrift/cpp/DgiBanking.cpp:1336-1353 | any sequence of acceptable calls, known and unknown names mixed, is read at the right boundaries and answered one for one in order |
| DgiBanking.AnswersAreFramed | thrift/cpp/DgiBanking.cpp:1398-1402 | whoever reads the answers of a run finds their headers one after the other and ends at their end |
| ConcurrentClient.StepKeeps | thrift/cpp/DgiBanking.cpp:1638-1715 | every step of every caller and of the server keeps the invariant; no caller ends in a bad state |
| ConcurrentClient.OwnResult | thrift/cpp/DgiBanking.cpp:1668-1714 | in every state of every run a caller that has returned has returned the server's answer to its own request |
| ConcurrentClient.HeaderConservation | thrift/cpp/DgiBanking.cpp:1668-1714 | headers read are bodies consumed plus the one header held or parked, if any, and the call that header is for is still waiting |
| ConcurrentClient.StepDelivers | thrift/cpp/DgiBanking.cpp:1669-1704 | no header is read while another is held or parked; a body is taken only by the caller it is for, which holds the header with its own sequence id and finishes with it; who has finished stays so |
| ConcurrentClient.EachAnswerOnce | thrift/cpp/DgiBanking.cpp:1638-1715 | every answer the server gave is either still on the stream or has been returned by its caller, never both and never neither |
| ConcurrentClient.ParkedCanFinish | thrift/cpp/DgiBanking.cpp:1668-1714 | whenever a header is parked and the mutex is free, the caller it is for can take it, consume the body behind it and return, without anybody else moving |
| ConcurrentProgress.NextCanFinish | thrift/cpp/DgiBanking.cpp:1668-1714 | whenever nothing is parked, the mutex is free and a reply is on the stream, the caller it is for can take the mutex, read the header and the body, and return its answer, without anybody else moving |
| ConcurrentProgress.NoCallLost | thrift/cpp/DgiBanking.cpp:1638-1715 | in every state of every run a call that was sent and has not returned is on the way to the server, at the server, or on the way back |
| ConcurrentProgress.AnswersCanArrive | thrift/cpp/DgiBanking.cpp:1668-1714 | from every state of every run, whoever holds the mutex and whatever is parked, the run can go on until every answer the server has given has been returned by the caller it was given to |
| ConcurrentProgress.EveryCallCanFinish | thrift/cpp/DgiBanking.cpp:1638-1715 | from every state of every run, whatever each caller was in the middle of, the run can go on until every caller has returned the answer given to it, or the one the server then chooses for it: no interleaving leads to a deadlock |
| ConcurrentProgress.AnyCallersCanFinish | thrift/cpp/DgiBanking.h:771-773 | any number of callers can start with any names and there is a run at whose end each has returned the answer the server chose for it |

## Left out

- The Thrift library itself: transports, buffering, recursion trackers, event handlers and contexts. Its protocol object is the class `TProtocol` and its application exception the class `TApplicationException`; their members carry the encoding's contracts, and their bodies are those contracts carried out.
- The library's own size limits and its rejection of sizes that are negative as signed numbers: sizes are 32-bit patterns, as the generated `uint32_t` variables hold them.
- ThriftProtocol.TProtocol.ReadListBegin: the element type in a list header is returned and, as in the generated code, not looked at. The meaning of a list is stated for elements of the declared type.
- ThriftLaws.LeafMeaning: stated for well-formed streams; on a malformed stream the classes are proved to throw where the specification fails, and the contents of an object after an exception are not specified.
- The five args, pargs, result and presult structs of the banking calls: equal shapes share a class. One class stands for an args struct and its pargs twin, whose card is a reference; one for all results and presults, whose return object is a reference to one of three types.
- The `switch` of each field loop is a method `ReadMember` of its own, the field loops of `BankCard` and of the call results are methods `ReadLoop`, the counted loops of lists are methods too, and the text members of a bank card, and of a folder-lock object, share a method that stores one; nested structs that the C++ objects hold by value are objects that nothing else refers to.
- DgiBanking.DgiBankingProcessor.Process: one method for the five process functions, which differ in their types only, and likewise `Send` and `Receive`. The handler is a function of a state, the call and the values of the arguments; what it fills in is copied into a result object.
- DgiBanking.ServeRun: the refusal of messages that are not calls is the library's, and is part of `ServeOne`.
- Names of structs and fields, which put no bytes on a binary stream; `printTo`, `swap`, copy constructors, the `Null` and `Multiface` classes; failure to allocate in `resize`.
- ConcurrentClient.StepKeeps: the library's `sync_` is an assumption (unused sequence ids, one slot, read mutex held except inside `waitForWork`, write mutex held for a whole send). Wake-up order, fairness and liveness are the library's: what is proved is that the run can always go on to the end, not that it must. A call counts as registered from its sequence id to its return. A reply of another type or name, a body where a header should stand, and a missing result all end in the phase `Broken`, which is proved never to be reached with a server that answers each request once.
- Crc32.DgiCRC32_8Bytes: a word load is four bytes in the chosen order, without regard to alignment; `length` is below 2^32, and its last decrement past zero is not observable.
- The other services (encryption, folder lock, service manager), whose clients and processors repeat the same generated shapes; the drivers' logging, registry, events and sockets; the Qt user interface; the constants files.
