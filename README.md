# DAPNET transmission core in Dafny

This project models the transmission control layer of the DAPNET paging
gateway and proves properties of the model:

- **The per-transmitter session** (`TransmitterClient`, `session.dfy`). Both
  copies of the class, the legacy one and the `org.dapnet` one, run the same
  stop-and-wait state machine, and one Dafny class models both. It holds:
  - a priority queue of pending messages;
  - at most one in-flight envelope (sequence number, payload, retry count);
  - a sequence counter that wraps at 256.

  Every write to the channel goes into a ghost log. The log is what lets the
  model state that an envelope's number is minted once, that a retransmission
  repeats the envelope unchanged, and that no envelope is written more than
  five times.
- **The Skyper call message factory** (`skyper.dfy`). It turns a call into
  one page per Skyper pager of every addressed callsign. For each callsign it
  picks alphanumeric paging, numeric paging, or nothing.
- **The Alphapoc time message factory** (`alphapoc.dfy`). It produces two
  26-character date texts: one for the UTC broadcast address and one for the
  local broadcast address.
- **The `@TimeSlot` validator** (`timeslot.dfy`). A time-slot string is valid
  when it holds strictly increasing hexadecimal digits.
- **The backward-compatibility entities `Transmitter` and `Call`**
  (`model.dfy`):
  - all-or-nothing resolution of owner and callsign names against the core
    state;
  - the transmitter's 64-bit call counter;
  - its identification message.

`common.dfy` holds the `Option`/`Result` wrappers, which stand for Java's
`null` and thrown exceptions, and ASCII case mapping. `core_messages.dfy`
holds the pager message value that the factories produce.

Where the code and its documentation disagree, the model follows the code:

- The comment of `TimeSlotValidator.isValid` lists `0123768EF` as a valid
  example. The code rejects it because 7 is followed by 6, and so does the
  model (`TimeSlotValidator.CommentExamples`).
- Messages of equal priority are not promised first-in-first-out order,
  because the session keeps them in a `java.util.PriorityQueue`, which does
  not promise one. The model only promises that the session polls *some*
  most urgent message.

## Model

| member | source | states |
|---|---|---|
| Common.LowerChar | src/main/java/org/dapnet/backwardcompatibilityservice/model/Call.java:116 | lower-casing maps A-Z to a-z by the fixed offset and leaves every other character alone |
| Common.UpperChar | src/main/java/org/dapnet/core/transmission/messages/SkyperCallMessageFactory.java:84 | upper-casing maps a-z to A-Z by the fixed offset and leaves every other character alone |
| Common.Lower | src/main/java/org/dapnet/backwardcompatibilityservice/model/Call.java:116 | a lower-cased string has the same length and is lower-cased character by character |
| Common.Upper | src/main/java/org/dapnet/core/transmission/messages/SkyperCallMessageFactory.java:84 | an upper-cased string has the same length and is upper-cased character by character |
| TimeSlotValidator.HexValue | src/main/java/de/rwth_aachen/afu/dapnet/legacy/transmitter_service/model/validator/TimeSlotValidator.java:35 | a one-character radix-16 parse succeeds exactly on 0-9, a-f and A-F, and yields the digit's value, which is below 16 |
| TimeSlotValidator.IsValid | src/main/java/de/rwth_aachen/afu/dapnet/legacy/transmitter_service/model/validator/TimeSlotValidator.java:26-44 | the loop with its running minimum accepts exactly the strings of hex digits whose values strictly increase over the whole string |
| TimeSlotValidator.SlotBoundNeverFires | src/main/java/de/rwth_aachen/afu/dapnet/legacy/transmitter_service/model/validator/TimeSlotValidator.java:35-36 | the guard `slot >= 16` never holds for a parsed digit |
| TimeSlotValidator.IncreasingLength | src/main/java/de/rwth_aachen/afu/dapnet/legacy/transmitter_service/model/validator/TimeSlotValidator.java:32-38 | a valid string whose values are all at least `lo` has at most 16 - lo characters |
| TimeSlotValidator.ValidIsShort | src/main/java/de/rwth_aachen/afu/dapnet/legacy/transmitter_service/model/validator/TimeSlotValidator.java:32-38 | every valid time slot has at most 16 characters |
| TimeSlotValidator.CaseInsensitive | src/main/java/de/rwth_aachen/afu/dapnet/legacy/transmitter_service/model/validator/TimeSlotValidator.java:35 | upper-casing a string never changes whether it is valid |
| TimeSlotValidator.CommentExamples | src/main/java/de/rwth_aachen/afu/dapnet/legacy/transmitter_service/model/validator/TimeSlotValidator.java:27-30 | `47E`, `0F`, `0f`, `4` and the empty string are valid; `0123768EF`, `98754`, `47H` and `33` are not |
| AlphapocTimeMessageFactory.YearOfEra | src/main/java/org/dapnet/core/transmission/messages/AlphapocTimeMessageFactory.java:22 | pattern letter `y` prints a year of era that is at least 1 and equals the year from year 1 on |
| AlphapocTimeMessageFactory.TwoDigits | src/main/java/org/dapnet/core/transmission/messages/AlphapocTimeMessageFactory.java:22 | a two-digit field is two decimal digits that read back as the number |
| AlphapocTimeMessageFactory.Format | src/main/java/org/dapnet/core/transmission/messages/AlphapocTimeMessageFactory.java:21-22 | the date text is 26 characters: the header `YYYYMMDDHHMMSS`, ten digits, then `00` |
| AlphapocTimeMessageFactory.ReadBack | src/main/java/org/dapnet/core/transmission/messages/AlphapocTimeMessageFactory.java:21-22 | the digit fields of the text read back as the two-digit year, month, day, hour and minute |
| AlphapocTimeMessageFactory.FormatInjective | src/main/java/org/dapnet/core/transmission/messages/AlphapocTimeMessageFactory.java:21-22 | two date-times print the same text exactly when they agree on year-of-era mod 100, month, day, hour and minute |
| AlphapocTimeMessageFactory.CreateMessage | src/main/java/org/dapnet/core/transmission/messages/AlphapocTimeMessageFactory.java:27-42 | exactly two messages, to address 216 then 224, both TIME, ADDR_D and ALPHANUMERIC; the first text is formatted from the UTC fields and the second from the local fields |
| AlphapocTimeMessageFactory.TextsDifferOnlyInDigits | src/main/java/org/dapnet/core/transmission/messages/AlphapocTimeMessageFactory.java:30-39 | the two texts share header and suffix, differ only in positions 14 to 23, and are equal when the local fields are the UTC ones |
| AlphapocTimeMessageFactory.Example | src/main/java/org/dapnet/core/transmission/messages/AlphapocTimeMessageFactory.java:27-42 | 2024-03-07 09:05 UTC shown at UTC+1 gives `YYYYMMDDHHMMSS240307090500` and `YYYYMMDDHHMMSS240307100500` |
| SkyperCallMessageFactory.IsNumericChar | src/main/java/org/dapnet/core/transmission/messages/SkyperCallMessageFactory.java:33 | a character belongs to the pattern's class exactly when it is one of `-`, `U`, `u`, an ASCII digit, `(`, `)` or a space |
| SkyperCallMessageFactory.IsNumericText | src/main/java/org/dapnet/core/transmission/messages/SkyperCallMessageFactory.java:59-60 | the whole text matches exactly when it is non-empty and every character is in the class (`+` demands at least one) |
| SkyperCallMessageFactory.CallPriority | src/main/java/org/dapnet/core/transmission/messages/SkyperCallMessageFactory.java:50 | an emergency call pages at EMERGENCY and any other at CALL; a call never pages at TIME |
| SkyperCallMessageFactory.ChooseEncoding | src/main/java/org/dapnet/core/transmission/messages/SkyperCallMessageFactory.java:74-89 | a callsign is skipped exactly when it is numeric-only and the text is not numeric; a numeric-only callsign gets NUMERIC on ADDR_A with the upper-cased text, any other ALPHANUMERIC on ADDR_D with the encoded text |
| SkyperCallMessageFactory.AddPagerMessages | src/main/java/org/dapnet/core/transmission/messages/SkyperCallMessageFactory.java:91-96 | the pager loop appends exactly the messages of the callsign's Skyper pagers to those collected so far |
| SkyperCallMessageFactory.CreateMessage | src/main/java/org/dapnet/core/transmission/messages/SkyperCallMessageFactory.java:49-103 | the nested loops return the reference result `Messages`: name by name, unknown names skipped, the encoding chosen once per callsign, and one message per Skyper pager |
| SkyperCallMessageFactory.SkyperPagersFilter | src/main/java/org/dapnet/core/transmission/messages/SkyperCallMessageFactory.java:91-92 | the pagers that get a message are exactly the SKYPER ones, and there are no more of them than pagers |
| SkyperCallMessageFactory.PagerMessagesPerSkyperPager | src/main/java/org/dapnet/core/transmission/messages/SkyperCallMessageFactory.java:91-96 | a handled callsign gets one message per Skyper pager, in pager order, addressed to that pager's number, with the call's timestamp, priority and chosen encoding |
| SkyperCallMessageFactory.NamesMessagesAppend | src/main/java/org/dapnet/core/transmission/messages/SkyperCallMessageFactory.java:64 | the output follows callsign order: the messages for names `a + b` are those for `a` followed by those for `b` |
| SkyperCallMessageFactory.UnknownNameSkipped | src/main/java/org/dapnet/core/transmission/messages/SkyperCallMessageFactory.java:65-69 | inserting a name the repository lacks anywhere in the call leaves the result unchanged |
| SkyperCallMessageFactory.NamesMessagesSameText | src/main/java/org/dapnet/core/transmission/messages/SkyperCallMessageFactory.java:50-96 | two calls with the same text and emergency flag produce the same messages for the same names |
| SkyperCallMessageFactory.MessagesUniform | src/main/java/org/dapnet/core/transmission/messages/SkyperCallMessageFactory.java:50-96 | every message carries the one timestamp, priority EMERGENCY iff the call is an emergency (else CALL), and either ADDR_D/ALPHANUMERIC/encoded text or ADDR_A/NUMERIC/upper-cased numeric text |
| SkyperCallMessageFactory.CallSignBranches | src/main/java/org/dapnet/core/transmission/messages/SkyperCallMessageFactory.java:74-96 | an alphanumeric callsign always gets the encoded text on ADDR_D; a numeric-only one gets the upper-cased text on ADDR_A when the text is numeric, and nothing otherwise |
| SkyperCallMessageFactory.NumericUpper | src/main/java/org/dapnet/core/transmission/messages/SkyperCallMessageFactory.java:79-84 | on numeric text, upper-casing changes only `u` to `U` and keeps the text numeric |
| SkyperCallMessageFactory.CapabilityCases | src/main/java/org/dapnet/core/transmission/messages/SkyperCallMessageFactory.java:59-96 | numeric text to an alphanumeric callsign is encoded, numeric text to a numeric-only callsign is sent as is, and alphabetic text to a numeric-only callsign sends nothing |
| Model.FoundAllOrNothing | src/main/java/org/dapnet/backwardcompatibilityservice/model/Transmitter.java:430-443 | the lookup loop keeps as many entries as there are names exactly when every name resolves, and then they are the lookups in name order |
| Model.CollectFound | src/main/java/org/dapnet/backwardcompatibilityservice/model/Transmitter.java:430-437 | the lookup loop collects the entries of the found names, in order |
| Model.WrapLong | src/main/java/org/dapnet/backwardcompatibilityservice/model/Transmitter.java:416-418 | 64-bit wrap-around: the result is a `long`, congruent to the input mod 2^64, and equal to it when it already fits |
| Model.Transmitter.constructor | src/main/java/org/dapnet/backwardcompatibilityservice/model/Transmitter.java:116-118 | a new transmitter has no name and no owner names (both null), identification address 1 and call count 0, and its counter holds a `long` |
| Model.Transmitter.SetName | src/main/java/org/dapnet/backwardcompatibilityservice/model/Transmitter.java:128-130 | sets the name, which may be null |
| Model.Transmitter.SetOwnerNames | src/main/java/org/dapnet/backwardcompatibilityservice/model/Transmitter.java:73 | sets the owner names, which may be missing |
| Model.Transmitter.SetIdentificationAddress | src/main/java/org/dapnet/backwardcompatibilityservice/model/Transmitter.java:371-373 | sets the identification address |
| Model.Transmitter.GetCallCount | src/main/java/org/dapnet/backwardcompatibilityservice/model/Transmitter.java:398-400 | the call count of a valid transmitter is a 64-bit `long` |
| Model.Transmitter.SetCallCount | src/main/java/org/dapnet/backwardcompatibilityservice/model/Transmitter.java:407-409 | the call count reads back as the value set, and the counter still holds a `long` |
| Model.Transmitter.UpdateCallCount | src/main/java/org/dapnet/backwardcompatibilityservice/model/Transmitter.java:416-418 | the call count moves by exactly `delta` when the sum fits, wrapping modulo 2^64 otherwise, and stays a `long` |
| Model.Transmitter.GetOwners | src/main/java/org/dapnet/backwardcompatibilityservice/model/Transmitter.java:421-444 | an unset state fails first; missing owner names give null; otherwise the users named exactly (no lower-casing) in name order if all resolve, else null |
| Model.Transmitter.CreateCallSignMessage | src/main/java/org/dapnet/backwardcompatibilityservice/model/Transmitter.java:465-467 | the message carries the transmitter's name (null while unset), its identification address, priority CALL and ALPHANUM |
| Model.Call.constructor | src/main/java/org/dapnet/backwardcompatibilityservice/model/Call.java:38-53 | a call holds the given text, callsign names, emergency flag and owner name |
| Model.Call.SetCallSignNames | src/main/java/org/dapnet/backwardcompatibilityservice/model/Call.java:83-85 | sets the callsign names |
| Model.Call.SetOwnerName | src/main/java/org/dapnet/backwardcompatibilityservice/model/Call.java:67-69 | sets the owner name |
| Model.Call.GetCallSigns | src/main/java/org/dapnet/backwardcompatibilityservice/model/Call.java:104-126 | missing names give null before the state is checked; then an unset state fails; otherwise the callsigns of the lower-cased names in order if all resolve, else null |
| Model.Call.GetOwner | src/main/java/org/dapnet/backwardcompatibilityservice/model/Call.java:129-138 | fails exactly when the state is unset; a missing owner name gives null; otherwise the user under the lower-cased name, or null |
| Model.LowerAll | src/main/java/org/dapnet/backwardcompatibilityservice/model/Call.java:115-116 | each name is looked up lower-cased, position by position |
| Model.CaseSensitivity | src/main/java/org/dapnet/backwardcompatibilityservice/model/Call.java:113-125 | `DL1ABC` does not resolve as an owner name against user `dl1abc`, but resolves as a callsign name against callsign `dl1abc` |
| Session.ExpectedSequenceNumber | src/main/java/de/rwth_aachen/afu/dapnet/legacy/transmitter_service/transmission/TransmitterClient.java:247-250 | the number an OK echoes is the successor of the envelope's number on the 8-bit ring: one more, or 0 after 255 |
| Session.Matches | src/main/java/de/rwth_aachen/afu/dapnet/legacy/transmitter_service/transmission/TransmitterClient.java:160-180 | OK names the envelope exactly when it echoes the successor number (0 after 255); RETRY and ERROR exactly when they echo the envelope's own number |
| Session.Ends | src/main/java/de/rwth_aachen/afu/dapnet/legacy/transmitter_service/transmission/TransmitterClient.java:256-259 | OK and ERROR always end the envelope; RETRY ends it exactly when it counts the fifth attempt |
| Session.Started | src/main/java/de/rwth_aachen/afu/dapnet/legacy/transmitter_service/transmission/TransmitterClient.java:214-220 | starting an idle session writes one frame when the queue holds a message and none when it is empty |
| Session.Advanced | src/main/java/de/rwth_aachen/afu/dapnet/legacy/transmitter_service/transmission/TransmitterClient.java:214-224 | `sendNext` only appends to the channel log; a busy session keeps its queue, its envelope and its counter |
| Session.Acknowledged | src/main/java/de/rwth_aachen/afu/dapnet/legacy/transmitter_service/transmission/TransmitterClient.java:153-186 | `ackMessage` only appends to the channel log, and it reports a match only while an envelope is in flight; a RETRY below the limit keeps the queue and the counter |
| Session.WritesNone | src/main/java/de/rwth_aachen/afu/dapnet/legacy/transmitter_service/transmission/TransmitterClient.java:214-220 | an envelope with no frame in the log has been written zero times |
| Session.LogOkMeans | src/main/java/de/rwth_aachen/afu/dapnet/legacy/transmitter_service/transmission/TransmitterClient.java:214-224 | in a valid log every frame is its envelope's one frame, envelopes appear in creation order, and none is written more than five times |
| Session.MintedConsecutive | src/main/java/org/dapnet/backwardcompatibilityservice/transmission/TransmitterClient.java:166-184 | successive new envelopes carry consecutive sequence numbers mod 256 |
| Session.MostUrgentExists | src/main/java/de/rwth_aachen/afu/dapnet/legacy/transmitter_service/transmission/TransmitterClient.java:216 | a non-empty queue has an element of least rank for `poll` to take |
| Session.StartWithConsistent | src/main/java/de/rwth_aachen/afu/dapnet/legacy/transmitter_service/transmission/TransmitterClient.java:215-220 | starting a message keeps a consistent idle session consistent |
| Session.StartedSettles | src/main/java/de/rwth_aachen/afu/dapnet/legacy/transmitter_service/transmission/TransmitterClient.java:215-220 | after starting, the session is idle only with an empty queue, and it holds the same messages as before |
| Session.RetransmittedConsistent | src/main/java/de/rwth_aachen/afu/dapnet/legacy/transmitter_service/transmission/TransmitterClient.java:221-222 | the envelope in flight, written again after `retry()`, repeats the last frame unchanged, makes up the one owed write and keeps the session consistent |
| Session.EnqueueSettles | src/main/java/de/rwth_aachen/afu/dapnet/legacy/transmitter_service/transmission/TransmitterClient.java:128-145 | queueing and then advancing keeps the invariant, and the messages held, queued or in flight, grow by exactly the new ones |
| Session.AcknowledgedSettles | src/main/java/de/rwth_aachen/afu/dapnet/legacy/transmitter_service/transmission/TransmitterClient.java:153-186 | an acknowledgement keeps the invariant; an ending one removes exactly the acknowledged message, and any other removes nothing |
| Session.ConsistentLogFacts | src/main/java/de/rwth_aachen/afu/dapnet/legacy/transmitter_service/transmission/TransmitterClient.java:256-259 | every write carries a number in [0, 256), all writes of one envelope are identical, and no envelope is written more than five times |
| Session.AdvancedMints | src/main/java/org/dapnet/backwardcompatibilityservice/transmission/TransmitterClient.java:172-184 | a new envelope is created exactly when none is in flight and the queue is not empty; it takes the counter, which moves on mod 256; otherwise the counter stays |
| Session.EnqueueNothingIdle | src/main/java/org/dapnet/backwardcompatibilityservice/transmission/TransmitterClient.java:97-102 | sending no messages to an idle session changes nothing |
| Session.AcknowledgedOutcomes | src/main/java/org/dapnet/backwardcompatibilityservice/transmission/TransmitterClient.java:110-143 | OK is valid iff it echoes the successor number; RETRY and ERROR iff they echo the envelope's own. OK, ERROR and the fifth RETRY drop the envelope. An earlier RETRY counts the attempt and rewrites the same frame without moving the counter |
| Session.TransmitterClient.constructor | src/main/java/de/rwth_aachen/afu/dapnet/legacy/transmitter_service/transmission/TransmitterClient.java:52-54 | a new session is idle, with an empty queue, counter 0, no transmitter and an empty log |
| Session.TransmitterClient.GetName | src/main/java/org/dapnet/backwardcompatibilityservice/transmission/TransmitterClient.java:48-55 | the attached transmitter's name, null while it has none; with no transmitter attached, the channel's short id |
| Session.TransmitterClient.SetTransmitter | src/main/java/de/rwth_aachen/afu/dapnet/legacy/transmitter_service/transmission/TransmitterClient.java:115-121 | attaches (or detaches) the transmitter |
| Session.TransmitterClient.PendingMessageCount | src/main/java/de/rwth_aachen/afu/dapnet/legacy/transmitter_service/transmission/TransmitterClient.java:193-197 | the queue size, which leaves out the in-flight message |
| Session.TransmitterClient.NextSequenceNumber | src/main/java/de/rwth_aachen/afu/dapnet/legacy/transmitter_service/transmission/TransmitterClient.java:208-212 | returns the counter and moves it on by one mod 256, staying in [0, 256) |
| Session.TransmitterClient.Poll | src/main/java/de/rwth_aachen/afu/dapnet/legacy/transmitter_service/transmission/TransmitterClient.java:216 | nothing from an empty queue; otherwise removes and returns one most urgent message |
| Session.TransmitterClient.StartNext | src/main/java/de/rwth_aachen/afu/dapnet/legacy/transmitter_service/transmission/TransmitterClient.java:215-220 | nothing on an empty queue; otherwise a most urgent message leaves the queue in a new envelope under the counter, and that envelope is written once |
| Session.TransmitterClient.Retransmit | src/main/java/de/rwth_aachen/afu/dapnet/legacy/transmitter_service/transmission/TransmitterClient.java:221-222 | writes the envelope in flight again and changes nothing else |
| Session.TransmitterClient.SendNext | src/main/java/org/dapnet/backwardcompatibilityservice/transmission/TransmitterClient.java:172-184 | idle: start; busy with a retransmit request: write the same envelope again; busy otherwise: nothing |
| Session.TransmitterClient.SendMessage | src/main/java/de/rwth_aachen/afu/dapnet/legacy/transmitter_service/transmission/TransmitterClient.java:128-133 | queues the message and advances; the invariant holds and the messages held grow by exactly this one |
| Session.TransmitterClient.SendMessages | src/main/java/org/dapnet/backwardcompatibilityservice/transmission/TransmitterClient.java:97-102 | queues all the messages and advances once; the invariant holds and the messages held grow by exactly these |
| Session.TransmitterClient.AckMessage | src/main/java/de/rwth_aachen/afu/dapnet/legacy/transmitter_service/transmission/TransmitterClient.java:153-186 | does what `Acknowledged` describes: ignored when idle; otherwise reports the match, drops or retries the envelope, and advances; keeps the invariant |

## Left out

- Netty channel I/O is not modelled. Writes become frames in a ghost log; `close`, the channel's remote address and its short id are not modelled. The short id is a constant field of the session.
- `setTransmitter` copying the channel's address into the transmitter is not modelled.
- `getDeviceType` and `getDeviceVersion` are not modelled. They have the shape of `getName`: the attached transmitter's device type or version, else the channel's short id (legacy TransmitterClient.java:77-84, 92-99). The transmitter's device fields are not part of this model.
- `getTransmitter` is not modelled. It is a plain field read (legacy TransmitterClient.java:106-108).
- Concurrency is not modelled: the `synchronized` blocks, `volatile` fields, the `AtomicLong` and the repository's read lock. Each operation is one atomic step, and the callsign repository is an immutable map.
- `PagerMessage.compareTo` is not part of this model. Each queued message carries an explicit priority key (`Session.Queued`), and `poll` takes some message of least key. No order among equal keys is promised, because `java.util.PriorityQueue` does not promise one.
- The session's queue is a multiset, not a binary heap. The heap's layout and the order it returns equal keys in are not modelled.
- `Instant.now()`, time-zone conversion and `DateTimeFormatter` internals are left out. The clock value and the calendar fields of both zones are parameters. Only the letters of the one pattern used are modelled.
- AlphapocTimeMessageFactory.CreateMessage: the message timestamp is `None`. The timestamp the `PagerMessage` constructor may set is not part of this model.
- The encoder injected into the Skyper factory is a function parameter with no properties.
- SkyperCallMessageFactory.CreateMessage: callsign names are a sequence in iteration order. The iteration order of the Java collection is whatever the call hands over.
- Model.Transmitter.GetOwners: owner names are a sequence in the iteration order of the `Collection` (Transmitter.java:432). That order is whatever the deserializer built.
- Model.Call.GetCallSigns: callsign names are a sequence in the iteration order of the `Collection` (Call.java:115). That order is whatever the deserializer built.
- Common.LowerChar, Common.UpperChar, Common.Lower, Common.Upper: only ASCII letters are mapped. Java's locale-sensitive, full-Unicode `toLowerCase`/`toUpperCase` are not modelled.
- TimeSlotValidator.HexValue: only ASCII hex digits parse. `Integer.parseInt` in radix 16 goes through `Character.digit`, which also accepts other Unicode decimal digits (for example full-width digits) and the full-width Latin letters U+FF21 to U+FF26 and U+FF41 to U+FF46. The model rejects all of those.
- TimeSlotValidator.IsValid: a null string is not modelled. Java throws a `NullPointerException` at `value.length()` (TimeSlotValidator.java:33), outside the `try`, so the exception escapes instead of the method returning false.
- Model.Transmitter.SetCallCount requires a 64-bit value, and Model.Transmitter.UpdateCallCount a valid counter and a 64-bit delta. Java's `long` parameter guarantees this; `UpdateCallCount` models the wrap-around explicitly.
- Model.Transmitter.SetOwnerNames: the owner names are set by the JSON deserializer writing the private field (Transmitter.java:73). The setter stands in for it.
- Model.Call.constructor: the deserializer fills the fields of a call (Call.java:38-53). The constructor that takes them all stands in for it.
- Null elements and null arguments are not modelled. A collection is present or absent as a whole, and its elements are never null. In Java, a null owner name makes `map.get(null)` throw (Transmitter.java:433); a null callsign name makes `toLowerCase` throw (Call.java:116); a null call text makes the matcher throw (SkyperCallMessageFactory.java:59); and `sendMessage(null)` throws in `PriorityQueue.add` (legacy TransmitterClient.java:130).
- `User.java` and `TransmitterManagerListener.java` are not modelled: one has only getters and setters, the other is only an interface.
- Both `RabbitMQManager.java` files are not modelled. They are broker and network I/O.
- The `javax.validation` annotations (`@Size`, `@Min`, `@Max`, `@Digits`) are not modelled. An external framework enforces them.
- The float `antennaGainDbi` is not modelled.
- The `PagerMessage` types the two sessions queue are not modelled, beyond `Model.CompatPagerMessage` for the one `createCallSignMessage` builds. The session is generic in its payload type.
