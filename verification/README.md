# Sutel, verified

Sutel places and answers SIP calls against a system under test, streams audio and digits over RTP, and then says what
was heard. What it reports is worth something only if its own protocol machines and its own arithmetic are right. This
project models four parts of it in Dafny and proves what each of them is for.

**Sending and hearing media** (`rtpverifier/`, `audio/g711.go`). `Receiver` is a class with the fields of the original and
a method for each stage of `accept`; every method is proved equal to one step of a pure state machine (`Receiving`).
About that machine: an invariant of all runs, conservation of packets, exact unwrapping of the 16 and 32 bit counters,
events reported one for one, independence of the order of arrival, and the exact condition under which the number of
missing packets shares it (`Reordering`). `Timeline` proves that reconstruction puts at every position the sample of the
first packet that covers it. `Sender` is the other half, and `EndToEnd`, `FrameRuns`, `Recordings`, `Dialling` and
`ReorderedDialling` join the two through a network that loses, repeats and reorders: frames come out in their places,
within the error of the codec, with silence where frames were skipped or lost, and digits come out as the digits that
were dialled. `Passages` says where frames end up when some silences are too long to be filled in.

**The call** (`signaling.go`, `dialog.go`, `inbound.go`, `outbound.go`). The called side (`UserAgentServer`) and the
calling side (`UserAgentClient`) are state machines whose events are messages, timers, their own next sends and
failures. A message may arrive whenever its sender ever sent it, any number of times. Over all runs of the joined
machine: the two sides never disagree on the final status (RFC 3261, sections 13 and 17), and INFO with CSeq
deduplication delivers every digit exactly once. `LateAnswers` says which status a caller that cancels ends with.
`ServerSession` and `ClientSession` are the loops of the original as class methods, proved against the machines, with
their retransmission schedule.

**The text** (`internal/sip/`, the Digest code of `inbound.go`, INFO bodies). Printers and parsers, proved to undo each
other: messages, From headers, quoted strings, Digest headers (RFC 7616, section 3.4) and DTMF INFO bodies. The scanners
are methods with the loops and flags of the original, proved against recursive specifications.

**The audio file and the score** (`audio/decode.go`, `audio/match.go`). The chunk parser is proved to read back what the
printer writes; the score is proved to be a correlation: within -1 and 1, and 1 for exactly the scaled and shifted copies.

Facts of the code that the properties have to respect, each proved or built into a model:

- `Parse` accepts a response whose reason holds a bare CR or LF, which `Bytes` then refuses; this is the only such case
  (`ResponsePrints`, `BareBreakRead`).
- Telephone events that arrive before the first audio packet are not counted when lost packets are, so the number of
  missing packets, unlike the audio, can depend on the order of arrival (`EventFirstDiffers`). All packets are counted if
  and only if as many packets come before the first audio packet as the numbers by which they stretch the range
  (`MissingOfAll`), and two deliveries of the same packets miss the same number if and only if the two differences agree
  (`MissingAgrees`); with audio first in both, they do (`MissingIndependence`).
- A caller whose name holds a double quote passes the checks of a scenario, and its From header is refused by the parser
  of the same library if and only if a quoted string in the name does not end there (`FromReads`): `a"b` is such a name,
  `a"b"c` is not (`QuotedCallers`).
- Mu-law has two codes for zero, and re-encoding maps one to the other (`MuLawTandem`).
- A packet of a telephone event that comes after the last end packet does not lengthen the reported event
  (`TrackReports`).
- The calling side starts with a remote CSeq of 0, so a peer request with CSeq 0 counts as a repeat: its BYE ends the
  call if and only if its number is above zero (`ByeEnds`, `ZeroByeIgnored`).
- On the calling side `Canceled` does not exclude a 200 that was already on its way (`CanceledYetAnswered`); a cancelled
  caller that has a final status has a 200 if and only if the called side gave one (`CanceledStatus`).

## Model

| member | source | states |
|---|---|---|
| G711.SearchSegment | audio/g711.go:76-83 | the segment found is the first whose end is not below the value, or one past the last |
| G711.ALawError | audio/g711.go:8-48 | for every sample, decoding its A-law code is off by at most 8 or a thirty-second of the sample |
| G711.MuLawError | audio/g711.go:50-74 | for every sample, clipping included, decoding its mu-law code is off by at most a thirty-second of the biased sample |
| G711.ALawTandem | audio/g711.go:8-48 | encoding a decoded A-law byte gives the byte back, for all 256 |
| G711.MuLawTandem | audio/g711.go:50-74 | encoding a decoded mu-law byte gives the byte back for all but 0x7f, and never changes what is heard |
| G711.DecodeG711 | audio/g711.go:85-95 | the loop fills the result with the decoded samples of the payload, in order |
| G711.EncodeG711 | audio/g711.go:97-107 | the loop fills the result with the codes of the samples, in order |
| G711.RoundTripNear | audio/g711.go:8-107 | a whole payload encoded and decoded stays within the error bound, sample by sample |
| Rtp.Unwrap16Exact | rtpverifier/receiver.go:617-629 | a 16 bit counter within half a cycle of the highest value so far is recovered exactly |
| Rtp.Unwrap32Exact | rtpverifier/receiver.go:631-643 | the same for a 32 bit counter |
| TelephoneEvents.EndedIds | rtpverifier/receiver.go:519-544 | the events that ended, each once, in the order of their first end packets |
| TelephoneEvents.TrackReports | rtpverifier/receiver.go:504-545 | for any packets at all: one report for each event that ended, and its duration is the longest heard up to its last end packet, its volume that of its first packet |
| Receiving.Configured | rtpverifier/receiver.go:164-194 | settings are refused exactly when the event payload type, the clock rate, the window or the gap is out of range; otherwise no payload map, window or gap is left empty |
| Receiver.New | rtpverifier/receiver.go:164-214 | a receiver is made exactly when the settings are in range, with the defaults filled in, and has heard nothing |
| Receiver.Receiver.constructor | rtpverifier/receiver.go:202-211 | a new receiver has heard nothing |
| Receiver.Receiver.Accept | rtpverifier/receiver.go:370-502 | accepting a packet takes the whole state of the receiver through exactly one step of the state machine |
| Receiver.Receiver.Heeds | rtpverifier/receiver.go:386-399 | the version, payload and source checks decide exactly whether a packet may be looked at |
| Receiver.Receiver.ListenTo | rtpverifier/receiver.go:400-426 | the first audio packet locks stream, codec and source; packets of other streams or codecs are refused and counted |
| Receiver.Receiver.AcceptStream | rtpverifier/receiver.go:427-450 | duplicates, conflicts, stale packets and a full buffer are told apart and counted, and nothing else is stored |
| Receiver.Receiver.AcceptRecord | rtpverifier/receiver.go:451-501 | a retained packet updates counters, maps, sequence space, audio and events together |
| Receiver.Receiver.AcceptAudio | rtpverifier/receiver.go:470-485 | audio is kept in order of arrival, with first and highest counters |
| Receiver.Receiver.AcceptDtmf | rtpverifier/receiver.go:504-545 | the event map and the reported events, changed in place, follow the event machine, and malformed payloads are counted |
| Receiver.Receiver.CountIncomplete | rtpverifier/receiver.go:557-561 | the loop counts the events of the stream that have not ended |
| Receiver.Receiver.Result | rtpverifier/receiver.go:547-607 | the reported result, retained packets in order of arrival included, is the specified function of the state |
| ReceiverRuns.RunInvariant | rtpverifier/receiver.go:370-502 | after any arrivals: identities match records, highest counters are the highest seen, stored audio is pairwise distinct and none is more than the reorder window below an earlier one, sizes and extended values stay within bounds |
| ReceiverRuns.Conservation | rtpverifier/receiver.go:383-512 | after any arrivals, even if one payload type is both audio and event: calls are retained packets, repeats, and those ignored for another reason; retained packets are audio and other events, at most 10000 |
| ReceiverRuns.MissingConserved | rtpverifier/receiver.go:649-666 | after any arrivals: missing plus retained sequences is the highest minus the lowest plus one |
| ReceiverRuns.RunReportsEvents | rtpverifier/receiver.go:498-545 | after any arrivals the reports are those of the accepted telephone-event packets, one per ended event |
| SequenceSpace.DistinctCount | rtpverifier/receiver.go:649-666 | sequences that are pairwise distinct are as many as their values |
| SequenceSpace.CountMissing | rtpverifier/receiver.go:655-665 | summing the gaps between sorted neighbours counts the numbers between the ends that are not there, repeats or not |
| SequenceSpace.MissingPackets | rtpverifier/receiver.go:649-666 | the same for sequences in any order |
| Timeline.SortPermutes | rtpverifier/receiver.go:548-554 | sorting keeps exactly the packets there are |
| Timeline.SortOrdered | rtpverifier/receiver.go:548-554 | sorting puts them in order of timestamp and then sequence |
| Timeline.LayRecord | rtpverifier/receiver.go:568-594 | one turn of the loop fills a short gap, drops a long one, and appends only what was not covered |
| Timeline.Reconstruct | rtpverifier/receiver.go:562-595 | the loop computes the specified timeline |
| Timeline.RebuildPlays | rtpverifier/receiver.go:562-595 | position k holds the sample of the first packet in order that covers it, or silence if none does |
| Timeline.RebuildExtends | rtpverifier/receiver.go:562-595 | processing more packets only extends what is already there |
| Timeline.RebuildLength | rtpverifier/receiver.go:562-595 | the length is at most the total payload and one longest gap between neighbours |
| Unwrapping.UnwrappingIsExact | rtpverifier/receiver.go:427-466 | when true counters stay within half a cycle of the highest, every stored value is the true one plus one constant per stream |
| Streams.DeliveryMatches | rtpverifier/receiver.go:370-502 | after a delivery with repeats and reordering the receiver holds each packet once, counts the repeats, and has counted as ignored and malformed exactly the events it cannot read |
| Reordering.OrderIndependence | rtpverifier/receiver.go:427-489 | two deliveries of the same packets, unreadable events included, in any orders give the same audio, duration, last sequence and discontinuities, even though unwrapping starts from different packets |
| Reordering.MissingIndependence | rtpverifier/receiver.go:467-469 | so they miss the same number of packets when audio comes first in both |
| Reordering.MissingIs | rtpverifier/receiver.go:649-666 | what is missing are exactly the gaps among the true sequences from the first audio packet on |
| Reordering.MissingOfAll | rtpverifier/receiver.go:467-469 | the missing packets are those of all packets if and only if as many come before the first audio packet as the numbers by which they stretch the range |
| Reordering.MissingAgrees | rtpverifier/receiver.go:467-469 | two deliveries of the same packets miss the same number if and only if that excess is the same for both |
| Reordering.EventFirstDiffers | rtpverifier/receiver.go:467-469 | a frame and an event: one order misses a packet, the other none |
| Sender.Sender.constructor | rtpverifier/sender.go:44-55 | a new sender has sent nothing and starts at the given counters |
| Sender.Sender.SendAudioFrame | rtpverifier/sender.go:109-144 | counters advance modulo their widths whether or not the socket takes the packet; an invalid target changes nothing; the packet logged is the encoded, padded frame |
| Sender.Sender.Play | rtpverifier/sender.go:69-105 | for every pattern of lateness: sent frames carry their own media time and samples, their sequences are consecutive, only frames that lateness excuses are skipped, and success ends with sent plus skipped equal to the number of frames |
| Sender.Sender.SkipFrames | rtpverifier/sender.go:81-91 | media time moves past skipped frames, sequence numbers do not |
| Sender.Sender.SendDTMF | rtpverifier/sender.go:146-205 | the packets logged are those of the digits, six each, in order; the string is sent as far as it is dialable and the socket and the waits allow |
| Sender.Sender.DialTurn | rtpverifier/sender.go:153-204 | one turn of the loop over the digits sends the six packets of its digit, as far as the waits and the socket allow |
| Scripts.PlayedIsScript | rtpverifier/sender.go:69-144 | a recording played without skips is the script of frames the end-to-end results are about, each frame cut from the recording and padded, wrap-around included |
| Scripts.DialledIsScript | rtpverifier/sender.go:146-205 | a digit string sent is the script of digits the end-to-end results are about |
| Network.DeliveredIsDelivery | rtpverifier/receiver.go:427-471 | anything the network makes of a script within the reorder window is a delivery the receiver can follow |
| EndToEnd.ScriptPlays | rtpverifier/receiver.go:547-596 | any mix of frames, digits and skipped frames within half a cycle of the timestamp: the audio is the frames that came through, one after the other, with silence for each gap of at most the gap limit and nothing for a longer one, and the discontinuities are the longer ones; if all gaps fit, every frame plays at its own time and all else is silence |
| EndToEnd.RebuildSpliced | rtpverifier/receiver.go:562-595 | rebuilding frames in order splices them so, for any gaps, and counts the long gaps as discontinuities |
| Network.BriefWithoutSkips | rtpverifier/sender.go:109-205 | a script that skips nothing and fits the retention limit stays within half a cycle of the timestamp |
| Passages.PassagePlays | rtpverifier/receiver.go:568-594 | of frames at places of their own: each one that came through is heard behind the frames before it that are not elided, each other one is silence in its place unless its run is longer than the gap limit, and those runs are the gaps counted |
| Recordings.SkippingIsScript | rtpverifier/sender.go:69-105 | whatever frames Play skips, its k-th packet is the k-th of the script with those frames skipped |
| Recordings.RecordingHeard | rtpverifier/sender.go:69-105 | a recording with any frames skipped: every frame that came through is heard in its place; skipped and lost ones are zeros in theirs if their run fits the gap limit, and a longer run is left out and counted as one discontinuity; if all runs fit, places are times |
| FrameRuns.FramesEndToEnd | rtpverifier/sender.go:109-144 | up to 10000 frames from any start counters, lost, repeated and reordered within the window: each frame from the first to the last heard is in its place; a lost one is zeros in its own if its run fits the gap limit, and a longer run is left out and counted as one discontinuity; if all runs fit, places are times |
| FrameRuns.FramesCounted | rtpverifier/receiver.go:555-556 | packets received and packets missing add up to the span heard |
| FrameRuns.FrameSound | audio/g711.go:85-107 | a frame that came through sounds like the spoken one within the error of the codec |
| FrameRuns.NothingLost | rtpverifier/receiver.go:547-596 | when nothing is lost, the audio is the decoded encodings of the padded frames, in order, and nothing more |
| Dialling.CodeSymbol | rtpverifier/receiver.go:668-681 | digit to event code and back name each other, in both directions |
| Dialling.ScriptDialled | rtpverifier/receiver.go:504-545 | any mix of frames, digits and skipped frames, thinned and repeated but in order, with an end packet left per digit: exactly the digits of the script are reported, in order, each with its full length |
| ReorderedDialling.ReorderedDialled | rtpverifier/receiver.go:504-545 | the same script with packets reordered and digits lost: one report of full length for each event of which an end packet came, in the order of the first end packets |
| ReorderedDialling.AllDialled | rtpverifier/receiver.go:504-545 | when every digit keeps an end packet, the reports are exactly the digits of the script, as a multiset |
| Dialling.DigitsReadBack | rtpverifier/sender.go:146-205 | a string of up to 1666 digits, dialled, is read back in upper case, one event of 640 units per digit |
| SipMessages.HandledOnce | signaling.go:345-401 | the same request handled again is answered the same and changes nothing: no digit twice, no second end |
| SipMessages.HandledFresh | signaling.go:374-396 | only a request with a higher CSeq than any before records a digit or ends the dialog |
| SipMessages.RunRecords | signaling.go:345-401 | over any messages, the digits recorded are those of the requests with rising CSeq, each once and in order |
| UasSafety.RunSafe | outbound.go:16-92 | the invariant of the called side holds after every run |
| UasSafety.RunOutcome | outbound.go:497-547 | in every run: established implies 200 and a matching ACK; canceled implies 487 and never established; ended only after established; after a final answer only the same answer is sent; all tagged answers share one tag |
| UasSafety.RunCanceled | outbound.go:253-264 | in every run of a behaviour that does not itself fail with 487, the final answer is 487 if and only if the call was canceled |
| UasSafety.RunSettled | signaling.go:310-314 | no part of the outcome changes once it is set |
| UasSafety.AckArrived | outbound.go:683-692 | the ACK that established the call is a message that was really received |
| Calls.RunJoint | inbound.go:386-474 | both sides joined by a network that loses, repeats and reorders keep the joint invariant |
| Calls.InviteAgreement | outbound.go:525-547 | the two final statuses are never both set and different; established at the called side implies 200 at the caller; established at the caller rests on the called side's one final answer |
| Calls.ExactlyOnceInfo | inbound.go:593-613 | the digits recorded are a prefix of those issued, hold every one that was confirmed, and at most one more |
| LateAnswers.CanceledStatus | inbound.go:417-430 | in every joint run a cancelled caller with a final status has a 200 if and only if the called side gave one, and, unless the called side is set to fail with 487, a 487 if and only if that side took the CANCEL |
| LateAnswers.CanceledYetAnswered | inbound.go:421-430 | a joint run after which the caller is cancelled and has a 200 |
| LateAnswers.ByeEnds | signaling.go:374-388 | in the dialog of an answered call the BYE of the peer ends it if and only if its number is above zero |
| LateAnswers.ZeroByeIgnored | signaling.go:374-388 | a run into a dialog that goes on after a BYE numbered 0 and ends at one numbered 1 |
| Retransmissions.ScheduledNext | dialog.go:100-102 | doubling under the cap keeps the waits on schedule |
| Retransmissions.WaitIs | dialog.go:101-102 | the n-th wait is T1 doubled n times, or T2 if that is less |
| Retransmissions.TimesIs | dialog.go:101-102 | doubling n times is multiplying by the n-th power of two |
| Retransmissions.SpentAtLeast | outbound.go:666-682 | once K doublings reach T2, n retransmissions take at least n - K waits of T2 |
| Retransmissions.RetransmissionsBounded | inbound.go:392-445 | in time D there are at most K + D/T2 retransmissions |
| Retransmissions.LoopBounded | dialog.go:91-130 | whatever waits a loop on schedule was armed with: if those that ran out add up to at most D, they are at most K + D/T2 |
| ServerSession.ServerSession.constructor | outbound.go:16-27 | a session starts waiting for its INVITE |
| ServerSession.ServerSession.HandleDialogRequest | signaling.go:345-401 | the branches and updates of the method are what the machine does with a message inside a dialog |
| ServerSession.ServerSession.HandleTransaction | signaling.go:370-400 | a request inside the dialog is answered and its CSeq, digit and end recorded at most once |
| ServerSession.ServerSession.AcceptWhileWaiting | outbound.go:683-706 | only a matching ACK ends the wait; the INVITE again gets the final answer again; CANCEL, BYE and INFO get 481 |
| ServerSession.ServerSession.WaitForInviteAck | outbound.go:665-707 | for every sequence of messages and timers the loop does what the machine does, stops where it leaves the state, and its waits follow the schedule, one more than there were retransmissions; in time D of waits that ran out it retransmits at most K + D/T2 times |
| ServerSession.ServerSession.AcceptWhileListening | outbound.go:267-309 | a valid CANCEL turns the call, a repeated INVITE gets the latest provisional answer again, other requests 481 |
| ServerSession.ServerSession.WaitForBehaviorDeadline | outbound.go:267-309 | for every sequence of messages and timers the loop does what the machine does and tells a cancel from a deadline |
| ClientSession.ClientSession.constructor | inbound.go:17-27 | a session starts before its INVITE |
| ClientSession.ClientSession.ServeWhileCalling | inbound.go:417-472 | one turn of the INVITE loop: final answers end it, the first provisional one stops retransmission, timers cancel it |
| ClientSession.ClientSession.RunInviteClientTransaction | inbound.go:386-474 | for every sequence of messages and timers the loop does what the machine does, and its waits follow the schedule; in time D of waits that ran out it retransmits at most K + D/T2 times |
| ClientSession.InviteCopies | inbound.go:437-471 | the INVITE goes out again for each timer before the first matching provisional answer, and never after it |
| ClientSession.ClientSession.HandleMessage | signaling.go:345-401 | the branches and updates of the method are what the machine does with a message inside the dialog, a repeated 200 getting its ACK again |
| ClientSession.ClientSession.HandleTransaction | signaling.go:370-400 | a request inside the dialog is answered, and its CSeq and end recorded at most once |
| ClientSession.ClientSession.ServeWhileAsking | dialog.go:91-130 | one turn of the request loop: its own final answer ends it, peer requests are handled meanwhile |
| ClientSession.ClientSession.FinishRequest | dialog.go:105-113 | a 2xx confirms the digit or ends the call by its own BYE, anything higher abandons it |
| ClientSession.ClientSession.SendNonInviteTransaction | dialog.go:79-131 | for every sequence of messages and timers the loop does what the machine does, stops only on its answer, the peer's end or a failure, and its waits follow the schedule; in time D of waits that ran out it retransmits at most K + D/T2 times |
| Text.SplitJoin | internal/sip/message.go:190-190 | splitting undoes joining when no part holds the separator's first character |
| SipText.CanonicalTwice | internal/sip/message.go:274-291 | a canonical header name is its own canonical name, compact and special names included |
| SipRoundTrip.HeadEnds | internal/sip/message.go:177-189 | the first empty line of a printed message is the end of its head, whatever the body holds |
| SipRoundTrip.PrintReads | internal/sip/message.go:139-267 | a message with trimmed values, an upper-case method and a blank-free URI prints, and parses to the same start line, body and canonical headers in order, with one correct Content-Length |
| SipRoundTrip.PrintAgain | internal/sip/message.go:139-168 | printing what was parsed is byte for byte the same |
| SipRoundTrip.ReadPrints | internal/sip/message.go:170-267 | every datagram that parses as a request prints, and parses again to the same request |
| SipRoundTrip.ResponsePrints | internal/sip/message.go:150-152 | a datagram that parses as a response prints if and only if its reason holds no bare CR or LF |
| SipRoundTrip.BareBreakRead | internal/sip/message.go:252-260 | a datagram that parses and whose message does not print |
| SipMessage.SetValues | internal/sip/message.go:44-85 | setting a header leaves it with that one value, or the items of it if it is a list header, and every other header with its values |
| SipMessage.PrintedByLines | internal/sip/message.go:155-167 | writing line by line is joining the lines of the specification |
| SipMessage.SipMessage.Add | internal/sip/message.go:44-46 | the header is appended under its canonical name |
| SipMessage.SipMessage.Set | internal/sip/message.go:48-51 | headers of that name are replaced by one at the end |
| SipMessage.SipMessage.Del | internal/sip/message.go:53-62 | exactly the headers of that name are gone, the rest keep their order |
| SipMessage.SipMessage.Get | internal/sip/message.go:64-70 | the first value, or nothing |
| SipMessage.SipMessage.Values | internal/sip/message.go:72-85 | all values in order, list headers item by item |
| SipMessage.SipMessage.Bytes | internal/sip/message.go:139-168 | the bytes, or the refusal, of the printed message |
| SipParser.UnfoldLines | internal/sip/message.go:194-205 | the loop joins folded lines and refuses an orphan |
| SipParser.ReadAllHeaders | internal/sip/message.go:210-229 | the loop reads every header or refuses, and collects the announced lengths |
| SipParser.CheckLengths | internal/sip/message.go:230-245 | accepted if and only if all announced lengths agree with each other and the body |
| SipParser.ParseMessage | internal/sip/message.go:170-248 | the parser as it runs computes the specified reading |
| Quotes.PiecesJoin | internal/sip/message.go:87-127 | scanning a list of whole items gives the items back, whatever they quote |
| Quotes.SplitListHeader | internal/sip/message.go:87-127 | the loop with its three flags splits as specified |
| Quotes.SplitDigestFields | inbound.go:317-345 | the same for Digest fields |
| Quotes.SplitOutsideQuotes | internal/sip/fields.go:207-236 | the same for address parameters, with an unclosed quote refused |
| Quotes.IndexOutsideQuotes | internal/sip/fields.go:181-205 | the first place outside quotes, none, or an unclosed quote |
| Quotes.UnescapeDigestValue | inbound.go:302-315 | the loop undoes backslash pairs as specified |
| Quotes.UnescapeEscape | inbound.go:273-315 | unescaping undoes quoting, for all values |
| Quotes.UnquoteSip | internal/sip/fields.go:159-179 | the loop unquotes or refuses as specified |
| Quotes.UnquoteQuoted | internal/sip/fields.go:159-179 | unquoting undoes quoting for all values without line breaks |
| Digest.ParseDigestChallenge | inbound.go:277-300 | the parser as it runs computes the specified map, or refuses a malformed or repeated parameter |
| Digest.HeaderReads | inbound.go:277-345 | parsing a printed Digest header gives back exactly its parameters |
| Digest.DigestAuthorization | inbound.go:198-208 | the first challenge that can be answered is answered, all before it cannot |
| Digest.AnswerReads | inbound.go:210-261 | the printed Authorization parses back to exactly the username, realm, nonce, URI, response and opaque, and cnonce where protection is used, whatever bytes they hold |
| Digest.ResponseUnescaped | inbound.go:251-251 | a response in hexadecimal is printed as it is, as the original prints it without quoting |
| Addresses.UriReads | internal/sip/fields.go:36-86 | a printed URI parses back to its user, host, port and transport |
| Addresses.FromReads | internal/sip/fields.go:104-157 | the caller's From header parses back to exactly its display name, user, host, port and tag if every quoted string in the user ends there, and is refused otherwise |
| Addresses.QuotedCallers | scenario.go:280-285 | two callers a scenario accepts: the header of `a"b` is refused, that of `a"b"c` is read |
| DtmfInfo.ReadFields | signaling.go:320-335 | the loop reads every field or refuses |
| DtmfInfo.ParseDtmfInfo | signaling.go:316-343 | the status, digit and duration the method returns are those of the specification |
| DtmfInfo.InfoReads | signaling.go:316-343 | the INFO body sent for a digit parses back to the digit in upper case, 160 milliseconds and status 200 |
| Wav.ScanChunks | audio/decode.go:45-83 | on any bytes the chunk loop ends, reads only inside the data, and finds the specified format and data |
| Wav.SumChannels | audio/decode.go:96-100 | the channels of one frame added up |
| Wav.MixDown | audio/decode.go:90-102 | the nested loops fill the array with every frame mixed down |
| Wav.QuotientBounded | audio/decode.go:101-101 | the mean of 16 bit samples, truncated toward zero, is a 16 bit sample |
| Wav.DecodeWavFile | audio/decode.go:45-104 | the decoder as it runs computes the specified samples and rate, or refuses |
| Wav.WavRoundTrip | audio/decode.go:152-171 | decoding what was written gives the same samples and rate, for every recording whose sizes fit 32 bits |
| Matching.CauchySchwarz | audio/match.go:283-306 | the square of a sum of products is at most the product of the sums of squares |
| Matching.NumeratorBounded | audio/match.go:294-301 | the numerator squared is at most the product of the powers |
| Matching.CorrelationWithin | audio/match.go:283-306 | a score is never outside -1 to 1 |
| Matching.CopyScoresOne | audio/match.go:283-306 | a positively scaled and shifted copy of a frame that is not constant scores exactly 1 |
| Matching.OneMeansCopy | audio/match.go:283-306 | nothing else scores 1 |
| Matching.Accumulate | audio/match.go:294-301 | the loop accumulates the numerator and both powers of the centred frames |
| Matching.NormalizedCorrelation | audio/match.go:283-306 | the method computes the correlation, and zero for constant frames or unequal lengths |
| Matching.ScoreFrame | audio/match.go:90-112 | one turn of the loop counts a frame as active, comparable and matched as specified |
| Matching.ScoreFrames | audio/match.go:80-113 | the loop adds up all frames, with matched at most comparable at most active |
| Matching.ScoresAreParts | audio/match.go:114-121 | coverage and similarity lie between 0 and 1 |

## Left out

- Receiver.Receiver.Accept: arrival times and the live frame channel are not modelled, so the retained events of the result carry the packet and its source; the error of a codec switch is a flag; changing the configuration of a running receiver is left out.
- Receiver.New: the check of the local address, port binding, the buffer of the socket and the read loop are not modelled.
- Receiver.Receiver.AcceptRecord: one method of the original is cut into stages; the fields of the stream lock, the statistics of audio and the other statistics are grouped into datatypes.
- Receiver.Receiver.Result: cloning of the result is not modelled, as its parts are values.
- Timeline.SortPermutes: sorting is insertion on sequences, as the original calls a library.
- Sender.Sender.Play: the clock, the waits and the socket are parameters (`late`, `waits`, `writes`); other senders at the same time are not modelled, and the log keeps the packet and the outcome, not the time.
- EndToEnd.ScriptPlays: a script whose skips make it span half a cycle of the timestamp (three days) is not covered, as one unwrapping step cannot tell it; without skips no script within the retention limit is that long (`BriefWithoutSkips`).
- UasSafety.RunSafe: message validation and the media verdict arrive with the event (`Validation`), the behaviours are lists of acts, media playback and echo are not modelled.
- Calls.RunJoint: the caller has no credentials, so the Digest retry is not part of the joint machine; a fork's own ACK and BYE are not modelled; a pause may follow every INFO and input while not reading is dropped, which allows more runs than the original has.
- Calls.InviteAgreement: a status is agreed, not that both sides learn it; liveness over a network that may lose everything is not claimed.
- ServerSession.ServerSession.WaitForInviteAck: the time limit of the wait and its context are the `Fail` event; routing of responses and Via rewriting are not modelled.
- ClientSession.ClientSession.RunInviteClientTransaction: the same for the caller's context and the stale ACK of a Digest retry.
- SipText.CanonicalTwice: a character is a byte and white space and case are ASCII; Unicode white space and case folding are not modelled.
- SipRoundTrip.PrintReads: a message is assumed to be shorter than 2^63 bytes.
- Digest.AnswerReads: MD5 and SHA-256 are parameters; the round trip holds for whatever text they return.
- Addresses.FromReads: the local host is a dotted IPv4 address other than 0.0.0.0, with octets as the original's address library prints them; IPv6 hosts are not modelled.
- Wav.DecodeWavFile: the file system and the error texts are not modelled; an error is the absence of a result.
- Wav.WavRoundTrip: writing is a function to bytes; a failing writer is not modelled.
- Matching.NormalizedCorrelation: floating point is exact real arithmetic, and the square root is a parameter that is a root of every non-negative real.
- Matching.ScoreFrames: alignment, its refinement, normalization and the silence level in decibels come as parameters; their floating-point tolerance is not a transitive order, so no exact maximum is claimed.
- Routing and route sets, out-of-dialog OPTIONS, SDP, media direction, session start and shutdown, scenario validation, diagnostics and file loading: plumbing or small case tables.
- Resampling: floating-point interpolation without a law of its own.
