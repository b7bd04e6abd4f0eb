# Verified model of the CC2530 Zigbee end device

This project models the protocol core of the firmware in Dafny and proves what it promises, for all inputs and over
whole runs. One build profile is modelled: the observed MAC link (`CC2530_MAC_LINK`), an end device with an explicitly
provisioned install code. `dafny verify dfyconfig.toml` checks everything.

The parts, by file:

- `Bytes.dfy`, `Words.dfy`: octets and 32-bit wrapped time.
- `CcmSpec.dfy` states CCM* as mathematics (sections 2.2 to 2.5 of RFC 3610 with L = 2, Annex B of IEEE 802.15.4-2006)
  over an arbitrary block cipher; `CcmStar.dfy` is the 16-byte streaming machine, proved to compute it.
  `CcmWire.dfy` says what that puts on the wire, octet by octet and in terms of the cipher alone. `ApsFrame.dfy` is the APS
  codec and `EdWire.dfy` the secured envelope around both; `EdWireOctets.dfy` says of the envelope which wires there are.
- `MacFrame.dfy` and `MacFrameLaws.dfy` are the MAC codec with its round trips, and `MacFrameBodies.dfy` says which bodies
  it accepts, command by command and octet by octet; `MacAssociation.dfy` is the one-shot matcher for Association
  Responses built on it, whose acceptance is characterised octet for octet.
- `MacEpoch.dfy` extends the radio's wrapped counters, `MacAttempt.dfy` turns raw samples into receipts.
  `AdapterSpec.dfy` is the radio adapter over unbounded true time, `AdapterSafety.dfy` its invariant,
  `AdapterTheorems.dfy` its promises over runs, `AdapterEvents.dfy` what each event says and of which transmission,
  `AdapterWitness.dfy` one concrete run, and `MacAdapter.dfy` the adapter
  itself on wrapped 32-bit stamps, proved to refine the unbounded machine as long as each pair of stamps a step really
  compares lies less than half a range apart (`include/mac_tx_interval.h:30`); steps that compare nothing need nothing.
- `JoinSpec.dfy` says what one processed step of the association attempt controller may do and what follows for whole
  attempts; `MacJoin.dfy` is the controller, with the transmitter and the poller as objects that answer arbitrarily.
- `Flash.dfy` is the reader, the executor and the once-only history against a flash whose commands may leave anything in
  the cells they name; `FlashWrite.dfy` is the write-once layer.
- `ClockSelect.dfy` is clock switching with rollback against arbitrary hardware readings.
- `BdbSpec.dfy` records whole commissioning runs as trails and says what every legal trail implies; `BdbStep.dfy` is what
  one step makes of the context from installation on; `BdbPasses.dfy` says what that is in each phase, in the answers' own
  fields, and follows the keepalive over any number of passes; `BdbJoin.dfy` is the controller, which computes those steps and
  keeps such a trail while its children answer arbitrarily; `BdbWitness.dfy` runs it twice with every answer spelt out.

Methods that change state are proved against functions or relations on values; the laws are proved about those. Time,
radio, flash, cipher, scan, transport, device object and key store answer arbitrarily within the contracts their
headers give.

Where the code departs from what is written about it, the code is kept and the departure is proved:

- The adapter accepts a retirement while it is closing after a stop has already been requested
  (`src/mac_adapter.c:212-221`); from there no branch of a step leads on, and retirement is never reported.
  `AdapterTheorems.QuiesceStrands` gives the exact condition, `AdapterWitness.StrandingRun` a run from reset that
  gets there, `AdapterTheorems.StrandedForever` the consequence, and `AdapterTheorems.RetirementCompletes` the other half:
  every other accepted retirement completes, with a received frame still in hand or without.
- `include/bdb_join.h:190` says recovery failures keep their credentials and never send Leave; line 208 of the same
  header says an address conflict still requests a genuine Leave, and line 55 that an accepted request to leave is followed
  by one. The code follows the last two, so only the first is contradicted: `BdbWitness.RecoveryLeaves` runs the
  controller into a recovery that sends it. `BdbSpec.ResumedDeparts`, `BdbJoin.CleanupDecides` and
  `BdbJoin.Commissioning.Step` say exactly when: the failure is an address conflict or an accepted request to leave, the
  transport is at rest with its completion confirmed, the keys are readable and not yet left, and the Leave is queued.
- Level bits of a received control octet are not authenticated (`EdWire.LevelBitsUnauthenticated`): every frame that opens
  does so from eight wires (`EdWire.EightWires`), and two accepted wires open alike if and only if they agree up to
  those bits (`EdWire.OpensAlike`).
- `include/bdb_join.h:206` says a READY keepalive is retried at most `ATTEMPTS`, that is three, times. The code has a limit of
  its own, six, as lines 18 to 22 of the same header have it, and `BdbPasses.SixLosses` proves that operation ends exactly
  at the sixth keepalive lost in a row.

One result is about the controller against arbitrary children only. A FAULT entered because a stop of the transport was
refused is not final within the call: `BdbStep.RefusedStop` and `BdbStep.FaultReplaced` are the exact condition,
`BdbWitness.FaultOverwritten` is a run, and `BdbJoin.Commissioning.Step` says that no other FAULT is replaced and that FAULT
found at the beginning of a step is final. It cannot arise with `src/nwk_aps.c`: a stop fails only on a bad clock, at the
same instant both times (lines 30-40 and 587-597), and a confirmation only if no packet is completed (lines 564-573), while
the controller asks only when one is.

## Model

| member | source | states |
|---|---|---|
| CcmSpec.OpenUndoesSeal | src/ccm_star.c:129-209 | For every block cipher, key, nonce, additional data and tag length, opening what was sealed returns the message (sections 2.2 to 2.5 of RFC 3610 with L = 2). |
| CcmSpec.SealUndoesOpen | src/ccm_star.c:129-209 | Whatever opens is the sealing of what it opens to. |
| CcmSpec.OpensExactlySealed | src/ccm_star.c:186-199 | Acceptance is exactly membership in the image of sealing: opens to m if and only if it is the sealing of m. |
| CcmSpec.CtrInvolution | src/ccm_star.c:108-119 | The counter-mode pass is its own inverse, block boundary by block boundary. |
| CcmSpec.CbcAppend | src/ccm_star.c:53-97 | CBC-MAC over whole blocks followed by more is chaining; the law that lets the streaming accumulator be fed piecewise. |
| CcmSpec.CipherCallsBounded | src/ccm_star.c:174-204 | The exact call count of an admitted operation is at most 27. |
| CcmStar.Engine.Flush | src/ccm_star.c:53-64 | One block through the cipher is one CBC step of the octets fed so far; a failing cipher is reported. |
| CcmStar.Engine.FeedOctet | src/ccm_star.c:66-75 | One octet extends the absorbed text by exactly that octet, flushing at a full block. |
| CcmStar.Engine.Feed | src/ccm_star.c:66-75 | A run of octets extends the absorbed text by exactly that run. |
| CcmStar.Engine.FeedAad | src/ccm_star.c:77-97 | Length prefix, additional data and zero padding are absorbed as the RFC's additional-data blocks. |
| CcmStar.Engine.Authenticate | src/ccm_star.c:77-97 | The machine's accumulator ends as the specification's MAC of nonce, additional data and message, in the exact number of cipher calls. |
| CcmStar.Engine.Counter | src/ccm_star.c:99-106 | The stream block for a counter value is the cipher of flags, nonce and counter. |
| CcmStar.Engine.Transform | src/ccm_star.c:108-119 | The in-place pass leaves exactly the specification's counter-mode text. |
| CcmStar.Engine.Crypt | src/ccm_star.c:129-209 | Preflight in source order; then, unless the cipher fails, the output is exactly the specification's ciphertext and MIC, or the message exactly when the MIC matches; the exact call count; every error leaves output, count and (before any call) report untouched. |
| CcmStar.PreflightExactly | src/ccm_star.c:157-173 | Which calls are refused before any cipher call, with which code, in numbers: the wait's bounds, the tag lengths 4, 8 and 16, the limits of data and text, the room for the output. |
| CcmStar.DirectionsExactly | src/ccm_star.c:174-208 | Direction 1 is opening and direction 0 sealing. |
| CcmStar.FlagsByFields | src/ccm_star.c:77-97 | The first octet of B_0 is the field composition of section 2.2 of RFC 3610. |
| CcmWire.SealedOctet | src/ccm_star.c:99-119 | Octet i of a sealed message is the message octet XOR octet i mod 16 of the cipher of 01, the nonce and the two octets, high one first, that hold 1 + i / 16 (section 2.3 of RFC 3610). |
| CcmWire.SealedTag | src/ccm_star.c:182-187 | Octet i of the MIC is octet i of the last link of the MAC chain XOR the cipher of 01, the nonce and a zero counter: block 0, which encrypts no message octet. |
| CcmWire.MacLinks | src/ccm_star.c:77-97 | The MAC chain by its octets: it starts from the cipher of flags, nonce and length high octet first, and each link enciphers the XOR of the one before with the next 16 octets of length-prefixed additional data and message, zero padded. |
| ApsFrame.DecodeUndoesEncode | src/aps_frame.c:48-143 | Every accepted header and payload decodes back to itself. |
| ApsFrame.EncodeUndoesDecode | src/aps_frame.c:48-143 | Every accepted body re-encodes to the identical octets. |
| ApsFrame.Encode | src/aps_frame.c:99-143 | Status by the validation order; on success the octets of header and payload and an unchanged rest; on error nothing changes. |
| ApsFrame.EmitFrame | src/aps_frame.c:99-111 | Header octets and payload in place, the rest of the buffer unchanged. |
| ApsFrame.AcceptsExactly | src/aps_frame.c:29-97 | Decoded if and only if 8 to 108 octets long, first octet 00 or 40 and source endpoint not FF; then every field is at its place, least significant octet first. |
| ApsFrame.RefusesBy | src/aps_frame.c:48-97 | The code every other body is refused with, decided by its length and first octet in the order of the objections. |
| ApsFrame.EncodesExactly | src/aps_frame.c:29-143 | Which header fields and sizes the encoder takes, and the first objection to every other. |
| EdWire.OpenUndoesSeal | src/ed_wire.c:354-447 | Every APS frame that seals opens to the original frame and the same metadata. |
| EdWire.SealUndoesOpen | src/ed_wire.c:354-447 | Whatever opens is, up to the three level bits of its control octet, the sealing of what it opens to under the counter it carries. |
| EdWire.OpensAlike | src/ed_wire.c:304-331 | Two accepted wires open to the same frame and metadata if and only if they agree once the three level bits are cleared. |
| EdWire.EightWires | src/ed_wire.c:304-331 | Every frame that opens does so from eight wires, one for each value of the level bits. |
| EdWire.LevelBitsUnauthenticated | src/ed_wire.c:384-446 | Changing the level bits of any admitted wire changes neither whether it opens nor what it opens to. |
| EdWire.SameAuthenticated | src/ed_wire.c:384-446 | Both directions hand the cipher mode identical additional data although the wire carries zero level bits. |
| EdWire.InspectSealed | src/ed_wire.c:304-331 | A sealed frame re-parses to the very plan it was built from: header, auxiliary and payload lengths, counter, source, selector. |
| EdWire.SecurityFlagNeutral | src/ed_wire.c:126-154 | Marking a frame secured changes nothing else the header reader looks at. |
| EdWire.ReadApsAlike | src/ed_wire.c:126-154 | A frame and its secured form are read alike. |
| EdWire.InspectedParts | src/ed_wire.c:304-331 | What an admitted received frame carries ahead of its text, octet by octet. |
| EdWireOctets.ReadsExactly | src/ed_wire.c:126-154 | A frame is read if and only if its own octets are those of an unsecured or secured unicast data frame; which field is which octet. |
| EdWireOctets.NonceIs | src/ed_wire.c:384-424 | The nonce octet by octet: source, counter least significant octet first, and the control octet 25. |
| EdWireOctets.AadIs | src/ed_wire.c:384-420 | The additional data octet by octet: the header marked secured, 25, the counter and the source. |
| EdWireOctets.SealsExactly | src/ed_wire.c:354-446 | Sealing succeeds if and only if the frame, the counter and the sizes allow, and what the first objection is otherwise. |
| EdWireOctets.SealedWire | src/ed_wire.c:384-447 | Every octet of a sealed wire: the marked header, control 20, counter, source, then the CCM* text and MIC under exactly that nonce and additional data. |
| EdWireOctets.InspectsExactly | src/ed_wire.c:304-331 | A wire is admitted for opening if and only if its own octets say so, with the code of every refusal. |
| EdWireOctets.OpensExactly | src/ed_wire.c:354-447 | An admitted wire opens if and only if its MIC is the one its text demands under the nonce read from its own octets; what it opens to, octet by octet. |
| EdWireOctets.DirectionsExactly | src/ed_wire.c:354-447 | Which direction opens and which seals. |
| EdWire.Envelope.BuildAad | src/ed_wire.c:384-420 | The buffer holds header marked secured, trusted control, counter and source. |
| EdWire.Envelope.Crypt | src/ed_wire.c:354-447 | Syntax, key, space and limit errors before any cipher call; otherwise exactly the sealed or opened frame with its metadata, the exact number of cipher calls, and an untouched output on every error. |
| MacFrameLaws.DecodeUndoesEncode | src/mac_frame.c:312-464 | Whatever the encoder accepts, the decoder accepts, with the same payload and the normalised header. |
| MacFrameLaws.EncodeUndoesDecode | src/mac_frame.c:265-464 | Every body the IEEE 2006 profile accepts re-encodes to itself; the encoder refuses exactly the commands received with Pending set. |
| MacFrameLaws.DecodeInjective | src/mac_frame.c:312-387 | Two bodies that decode to the same header and payload are the same body. |
| MacFrameLaws.Profiles | src/mac_frame.c:265-387 | The R22 profile accepts a superset that differs only on uncompressed Association Responses and agrees everywhere else. |
| MacFrameLaws.PolicyOfNormalised | src/mac_frame.c:248-310 | Normalising a header changes no policy verdict. |
| MacFrameLaws.TransmitPolicy | src/mac_frame.c:265-310 | What may be sent is exactly what may be received except commands marked Pending, which are refused as an invalid header. |
| MacFrame.CommandDecodeUndoesEncode | src/mac_frame.c:25-137 | Every valid command decodes from its octets to itself with absent fields zero. |
| MacFrame.CommandEncodeUndoesDecode | src/mac_frame.c:68-137 | Every accepted command payload is the encoding of what it decodes to. |
| MacFrame.CommandEncode | src/mac_frame.c:108-137 | The command's octets in place, or an untouched buffer. |
| MacFrame.BeaconFields | src/mac_frame.c:139-187 | The field walk over superframe, GTS and pending lists agrees with the specification decoder on every payload. |
| MacFrame.Encode | src/mac_frame.c:397-464 | Status in source order; header and payload octets in place, the rest and every error's buffer unchanged. |
| MacFrame.DecodeProfile | src/mac_frame.c:312-387 | The moving-position parser computes the specification decoder, every error code included. |
| MacFrameBodies.CommandsExactly | src/mac_frame.c:265-388 | Which command bodies are accepted, command by command, in their own octets: control octets, addresses, PANs and payload of Data Request, Association Request and Response, Beacon Request and Disassociation; no other command is. |
| MacFrameBodies.FramesExactly | src/mac_frame.c:197-388 | The same for data, acknowledgement and beacon bodies. |
| MacFrameBodies.DecodesExactly | src/mac_frame.c:312-388 | A body decodes if and only if it is one of those. |
| MacFrameBodies.BeaconsExactly | src/mac_frame.c:139-195 | Which beacon payloads are accepted, by their own octets. |
| MacFrameBodies.PayloadsExactly | src/mac_frame.c:25-106 | Which command payloads are accepted, by their own octets. |
| MacFrameBodies.HeaderInOctets | src/mac_frame.c:312-388 | Every control field of an accepted header is at its bits of the first three octets. |
| MacFrameBodies.AddressesInOctets | src/mac_frame.c:312-388 | PANs and addresses of an accepted header are the octets at their places, the source PAN shared when compressed. |
| MacFrameBodies.EncodesExactly | src/mac_frame.c:423-464 | A header and payload encode if and only if their octets form an accepted body without the pending mark of an Association Response or Data Request, and fit. |
| MacFrameBodies.CommandRefusals | src/mac_frame.c:68-117 | The code of every command payload that is refused. |
| MacFrameBodies.BeaconRefusals | src/mac_frame.c:139-195 | The code of every beacon payload that is refused. |
| MacFrameBodies.HeaderRefusals | src/mac_frame.c:197-237 | What the encoder looks at first, with its code: the version, the security flag, the flags there are, the type, the address modes. |
| MacAssociation.ResponseExactly | src/mac_association.c:75-174 | A body is answered with Response if and only if it is, octet for octet, the frame of acceptable facts: addressed to the local IEEE, from the selected PAN and, when known, the selected coordinator. |
| MacAssociation.ResponseComplete | src/mac_association.c:75-174 | Every sheet of acceptable facts makes such a body, and the facts are read back. |
| MacAssociation.ResponseSound | src/mac_association.c:75-174 | Nothing else is one. |
| MacAssociation.ResponseLayout | src/mac_association.c:75-174 | The whole wire form of a Response, octet by octet. |
| MacAssociation.StartsExactly | src/mac_association.c:34-72 | Which requests start a context, the code of every refusal, and the fresh context. |
| MacAssociation.AdmitsExactly | src/mac_association.c:94-105 | Which steps are admitted, the code of every refusal, and that a refused step changes nothing. |
| MacAssociation.StepsExactly | src/mac_association.c:107-174 | What every admitted step does: the end of the lifetime, the end of the work, a cancellation, a frame that counts, or one unit of work. |
| MacAssociation.DecidesExactly | src/mac_association.c:107-164 | What an event is judged to be, in terms of instants, channel, octets and work left; while the attempt goes on the first cause that applies is reported. |
| MacAssociation.TakesExactly | src/mac_association.c:185-199 | Only a finished context gives up its record, and is idle then. |
| MacAssociation.RecordsExactly | src/mac_association.c:145-158 | The record of a Response is what its octets say: address, status, sequence, source, and what kind of address and relation that is. |
| MacAssociation.RecordedStrictlyIncreasing | src/mac_association.c:34-199 | Over every run of start, step and take, Responses are recorded at most once per generation and in strictly increasing generations. |
| MacAssociation.RespondsOnlyInTime | src/mac_association.c:75-174 | Over every run from any tracked context, a new one included (`MacAssociation.NewTracks`), with a true unbounded clock whose gaps stay below half a range: a Response is recorded only at a true instant before the end of the lifetime, its stamp between the last accepted instant and now; a lifetime that has wrapped past is excluded. |
| MacAssociation.ExpiresExactly | src/mac_association.c:75-130 | A waiting context is judged expired if and only if the true instant is at or past the end of the lifetime. |
| MacAssociation.EndsWithinWork | src/mac_association.c:34-174 | Every waiting context ends within its work limit of admitted steps. |
| MacAssociation.RunKeeps | src/mac_association.c:34-199 | Every reachable context stays consistent. |
| MacAssociation.Association.Start | src/mac_association.c:34-73 | The context after start is the specification's, or unchanged with the right error. |
| MacAssociation.Association.StepRx | src/mac_association.c:75-174 | The context, record and observation after a step are the specification's. |
| MacAssociation.Association.Take | src/mac_association.c:185-199 | Takes the finished record once. |
| MacEpoch.ContinuousRunTracks | src/mac_epoch.c:16-59 | For every sequence of true tick counts with gaps below half a cycle, the epoch never faults and shows true elapsed symbols modulo 2^32 with exact fine phase. |
| MacEpoch.StepOverGap | src/mac_epoch.c:27-59 | One step faults exactly when the true gap, modulo a cycle, is half a cycle or more. |
| MacEpoch.ProgressIsDistance | src/mac_epoch.c:27-59 | The mixed-radix difference is the true distance modulo one cycle. |
| MacEpoch.StartTracks | src/mac_epoch.c:16-25 | Any start begins tracking. |
| MacEpoch.FaultKept | src/mac_epoch.c:27-59 | A fault keeps the last accepted coordinates over every later run. |
| MacEpoch.Epoch.Step | src/mac_epoch.c:27-59 | The context after a step is the specification's; outputs change only on success. |
| MacAttempt.ProjectsIffOrdered | src/mac_attempt.c:96-122 | Samples of the true clock project if and only if they were taken in order, and then show true symbols and phase. |
| MacAttempt.PublishedInTrueOrder | src/mac_attempt.c:82-155 | A published receipt's stamps are true instants with armed before transmit, receive and last, in true order, the transmit lower bound a full airtime after the pre-strobe sample. |
| MacAttempt.BackwardFaults | src/mac_attempt.c:96-104 | A sample taken before its predecessor never projects. |
| MacAttempt.AirtimeStamp | src/mac_attempt.c:105-110 | Adding the airtime in wrapped symbols is adding it in true time. |
| MacAttempt.Attempt.Run | src/mac_attempt.c:82-155 | Publishes only when all samples project; otherwise the caller's record is unchanged and the epoch error is retained. |
| MacAttempt.Attempt.Prepare | src/mac_attempt.c:66-80 | The slot advances once per accepted body and stops at its last value; a retained fault refuses. |
| MacAttempt.Attempt.Handoff | src/mac_attempt.c:194-202 | A retained fault is returned before anything is touched. |
| AdapterSafety.CallKeeps | src/mac_adapter.c:103-449 | Every call of the twelve-phase machine keeps the invariant that ties its fields to the event log, the frames handed over and the radio requests made. |
| AdapterTheorems.RunKeeps | src/mac_adapter.c:103-449 | So does every run with a clock that does not run backwards. |
| AdapterTheorems.EventsReportedAfterTheirBound | src/mac_adapter.c:62-101 | In every run from reset, the i-th event has token i and a report stamp at or after its upper bound, in true unbounded time. |
| AdapterTheorems.FramesDeliveredInOrder | src/mac_adapter.c:79-101 | Frames are delivered in the order of the radio's own answers, with consecutive serials, none skipped and none repeated. |
| AdapterTheorems.NothingLost | src/mac_adapter.c:79-101 | While in service every frame the radio answered with has been delivered or is the one still held. |
| AdapterSafety.HandedInStep | src/mac_adapter.c:290-381 | A step counts and holds a frame if and only if the radio's answer to the operation it made carries one, and it is that frame. |
| AdapterTheorems.EventStable | src/mac_adapter.c:242-394 | A published event, frame included, stays as it is until exactly its token is consumed. |
| AdapterTheorems.AckWindowClosedHonestly | src/mac_adapter.c:321-354 | A closed acknowledgement window: confirmed stop with nothing asked since, every frame delivered, watermark sampled before the first stop request and at or after the transmission's upper bound plus 54 symbols. |
| AdapterTheorems.UserCloseHonest | src/mac_adapter.c:226-240 | A requested close never reports a watermark before the requested end, with the same confirmation and drain. |
| AdapterTheorems.BusyHonest | src/mac_adapter.c:253-354 | A busy channel is reported only after it was sensed, no earlier than the requested instant allows. |
| AdapterTheorems.ClosuresInRuns | src/mac_adapter.c:226-354 | In every run from reset, each published closure, requested close and busy report is honest in these senses. |
| AdapterTheorems.LaunchedInWindow | src/mac_adapter.c:183-275 | In every run from reset, every attempt is launched for an earlier accepted request, at an instant the clock showed inside the window it named, with no other launch in between. |
| AdapterEvents.StepPublishes | src/mac_adapter.c:62-101 | What every event of a step says, by the state it is published in and in the machine's own fields: slot, report instant, token, serial, bounds and source; a frame is an acknowledgement exactly if it is offered while one is collected, its checksum bit is set, it is three octets long and its type is Acknowledgement. |
| AdapterEvents.AcksInRuns | src/mac_adapter.c:79-101 | In every run from reset: an event's source is an acknowledgement if and only if it offers a frame in collection with a good checksum, three octets and the Acknowledgement type; its lower bound is then that of the radio's receipt of the attempt launched last, which did transmit. |
| AdapterEvents.SentInRuns | src/mac_adapter.c:255-289 | In every run from reset, a sent report carries the bounds of the radio's receipt of the attempt launched last, which did transmit. |
| AdapterEvents.WorkNamed | src/mac_adapter.c:62-77 | In every run from reset, an event about an engine's work names the generation, retry and backoff count that engine had at the last accepted preparation. |
| AdapterEvents.PreparesExactly | src/mac_adapter.c:140-164 | When a preparation is accepted, and the slot it makes: the engine's own identity, generation and counters. |
| AdapterEvents.AttemptsExactly | src/mac_adapter.c:183-225 | When an attempt is granted: slot, engine and action agree in every field. |
| AdapterEvents.CollectsExactly | src/mac_adapter.c:183-225 | When a collection is granted: for exactly 54 symbols after the upper bound of a transmission that was sent. |
| AdapterEvents.RetiresExactly | src/mac_adapter.c:183-225 | When a retirement is granted and which phase it leads to. |
| AdapterEvents.RetiresFirst | src/mac_adapter.c:290-318 | The first step of a retirement keeps the receiver exactly for the two outcomes its policies name, and otherwise stops the radio. |
| AdapterEvents.LossFaults | src/mac_adapter.c:350-381 | When a frame lost by the radio is a fault, and that it is reported otherwise. |
| AdapterEvents.ClosesExactly | src/mac_adapter.c:226-240 | When a caller's close is granted and for which end. |
| AdapterEvents.ConfiguresExactly | src/mac_adapter.c:103-124 | When initialisation, configuration and opening succeed: channels, powers, and the state they need. |
| AdapterTheorems.FaultForever | src/mac_adapter.c:44-54 | A fault is final for machine and log over every later run. |
| AdapterTheorems.QuiesceStrands | src/mac_adapter.c:212-221 | An accepted retirement strands the adapter if and only if it arrives while closing after a stop has already been requested. |
| AdapterWitness.StrandingRun | src/mac_adapter.c:103-381 | A concrete run from reset, eleven calls with ordinary radio answers, that ends stranded: receive, close, report, prepare, attempt, busy channel, drain, retire. |
| AdapterTheorems.StrandedForever | src/mac_adapter.c:290-381 | Once stranded, no run ever publishes anything but received frames again: retirement is never reported. |
| AdapterTheorems.RetirementCompletes | src/mac_adapter.c:290-354 | Every other accepted retirement, with no received frame in hand or one whose receive bound has passed, is reported within six steps of a radio that does what it is asked and a reader that consumes what is published. |
| AdapterSpec.UnwrapExact | src/mac_adapter.c:226-240 | A wrapped stamp is accepted exactly when some instant in the half range from now on shows it, and that instant is unique. |
| MacAdapter.ReachedShown | src/mac_adapter.c:25-28 | The modular comparison decides the true order of instants less than half a range apart. |
| MacAdapter.CeilShown | src/mac_adapter.c:79-101 | Rounding a wrapped bound up to the next symbol is rounding the true instant up. |
| MacAdapter.OrderedShown | src/mac_adapter.c:29-34 | Wrapped stamps compare as their instants do. |
| MacAdapter.Adapter.Init | src/mac_adapter.c:103-124 | On wrapped 32-bit stamps, refines the unbounded machine. |
| MacAdapter.Adapter.Now | src/mac_adapter.c:126-138 | Likewise; the stamp is published only on success. |
| MacAdapter.Adapter.Prepare | src/mac_adapter.c:140-164 | Likewise, with the same refusals. |
| MacAdapter.Adapter.Unprepare | src/mac_adapter.c:166-181 | Likewise. |
| MacAdapter.Adapter.Accept | src/mac_adapter.c:183-224 | Likewise for attempt, collection and retirement requests. |
| MacAdapter.Adapter.Close | src/mac_adapter.c:226-240 | Likewise for a requested end. |
| MacAdapter.Adapter.Step | src/mac_adapter.c:242-381 | Likewise for every phase, with the same single radio operation, as long as the pairs of stamps that very step compares lie less than half a range apart. |
| MacAdapter.Adapter.Consume | src/mac_adapter.c:383-394 | Likewise: exactly the published token. |
| MacAdapter.Adapter.Configure | src/mac_adapter.c:399-428 | Likewise. |
| MacAdapter.Adapter.Open | src/mac_adapter.c:430-447 | Likewise. |
| JoinSpec.EveryAttemptEnds | src/mac_join.c:492-738 | Every attempt is done or faulted within its work plus the cleanup work plus two processed steps, whatever the children and events do. |
| JoinSpec.TokensGrow | src/mac_join.c:197-203 | Each step issues at most one token, tokens grow, and no attempt wraps its 16-bit token. |
| JoinSpec.DeadTokensStayDead | src/mac_join.c:197-203 | A completed or superseded token never matches again, however the attempt goes on. |
| JoinSpec.DoneOnlyByRestoration | src/mac_join.c:711-738 | Done is entered only on the matching completion of an outstanding restoration with transmitter and POLL idle and the ready time reached. |
| JoinSpec.EndedStays | src/mac_join.c:407-512 | Done and fault are final for stepping. |
| JoinSpec.CausesKept | src/mac_join.c:171-195 | The first result, stage, reason and cleanup cause of an attempt are those it ends with. |
| JoinSpec.AttemptKeeps | src/mac_join.c:407-738 | Every state of every attempt is consistent and each step spends budget. |
| JoinSpec.AbortIs | src/mac_join.c:171-186 | An abort keeps the first reason and result with their phases, and stopping begins once with 8192 symbols and 128 steps. |
| JoinSpec.FaultIs | src/mac_join.c:188-195 | A fault besides leaves the radio uncertain and records the cleanup's first error once cleanup has begun. |
| JoinSpec.BudgetIs | src/mac_join.c:492-512 | What a step spends, which cause ends the attempt first, and when cleanup itself is given up. |
| MacJoin.Join.Step | src/mac_join.c:407-738 | The imperative step, with nondeterministic children, is one processed step of that relation, or changes nothing; it only adds to the attempt's calls into its children, what they say of where the attempt is stays true, and a step that is not cut short does the work of every phase it passes. |
| MacJoin.RequestDecides | src/mac_join.c:604-630 | What the request's release decides at every later point of an attempt: acknowledged and not stopping, it waits, its POLL was started, or something has gone wrong since; otherwise no POLL is ever started, it is being restored, and unless it was already stopping its result and stage are the request. |
| MacJoin.WaitsForAck | src/mac_join.c:622-629 | Waiting and extraction are reached only by releasing an acknowledged request while not stopping. |
| MacJoin.PollAfterAck | src/mac_join.c:632-648 | In every attempt a POLL is started only after such a release, with no other release in between. |
| MacJoin.PollAfterWait | src/mac_join.c:581-589 | And only when the response wait of so many superframes of 960 symbols after the end of the acknowledgement is over. |
| MacJoin.CountsExactly | src/mac_join.c:483-497 | Which events count for the attempt: its own, and between the last step and now unless a frame. |
| MacJoin.SourcesExactly | src/mac_join.c:440-467 | Which transmitter sources are taken, by kind, length and the order of their instants. |
| MacJoin.EventsExactly | src/mac_join.c:429-475 | Which events are taken at all. |
| MacJoin.RequestWire | src/mac_join.c:371-383 | The Association Request on the air, octet by octet. |
| MacJoin.RequestEncodes | src/mac_join.c:371-384 | The encoder takes the Association Request of every vetted request: 17 or 23 octets and the command's two. |
| MacJoin.Join.Vet | src/mac_join.c:336-363 | Which requests are taken and the code of every refusal. |
| MacJoin.Join.Settle | src/mac_join.c:616-630 | The released request's outcome decides between waiting and restoring. |
| MacJoin.Join.PrepareBlock | src/mac_join.c:514-545 | Which answer to the preparation starts the request, with the time that is left, and what a refusal leads to. |
| MacJoin.Join.WaitBlock | src/mac_join.c:632-645 | The end of the response wait starts the poll and uses up the event; stopping leads to restoration. |
| MacJoin.Join.OpenWindow | src/mac_join.c:205-238 | When the association window opens, from which instant, for how long, and that it opens once. |
| MacJoin.Join.Receipt | src/mac_join.c:240-270 | A ready poll record is taken once, gives the attempt its first result, and is classified only through an open window. |
| MacJoin.Join.StepPoll | src/mac_join.c:647-684 | Which event the poller is given, with whose instant and token, and what a failed step leads to. |
| MacJoin.Join.Collect | src/mac_join.c:685-692 | After a poll step the window is opened and the record received before the step goes on. |
| MacJoin.Join.Start | src/mac_join.c:315-405 | Which calls are refused, with the code of every refusal, exactly; a started attempt is fresh and its request body is exactly the encoded Association Request; a refused one changes nothing; the encoder's own refusal cannot arise. |
| MacJoin.Join.Take | src/mac_join.c:748-767 | The record is taken once, after completion. |
| MacJoin.Join.Release | src/mac_join.c:769-791 | Release only of a taken, completed attempt with everything idle; a fault keeps its lease. |
| MacJoin.Join.RestoreBlock | src/mac_join.c:711-738 | Restoration: requested once everything is idle, completed only by its own event. |
| MacJoin.Join.Abort | src/mac_join.c:171-186 | The first cause is kept and stopping begins with its fixed bounds. |
| MacJoin.Join.FaultWith | src/mac_join.c:188-195 | A fault keeps the first causes and marks the radio state uncertain. |
| Flash.AddressesAgree | src/flash_exec.c:244-245 | Reader window and executor word address name the same bytes, and neither 16-bit computation overflows. |
| Flash.PagesPlaced | src/flash_exec.c:244-245 | Where the two pages are for the reader, the executor and the flash. |
| Flash.BitDoubles | src/flash_write.c:42-44 | Words are marked from the least significant bit of their octet on. |
| Flash.Reader.Read | src/flash.c:57-120 | Which arguments are refused, exactly; only a complete read with the caller's bank verified back is published; it is the page's bytes; every error leaves the output alone and state errors are retained. |
| Flash.PollDown | src/flash_exec.c:43-120 | The two-byte countdown polls until quiet and otherwise exactly as often as its limit says. |
| Flash.VerdictBits | src/flash_exec.c:80-113 | What the RAM code reports, in the status register's bits: success is the command taken and only its own cache bits left. |
| Flash.Executor.Command | src/flash_exec.c:177-268 | Which arguments are refused, exactly; a command changes only the page or word it names, only if it was issued, once and with its own arguments, and every failure is latched. |
| Flash.OnceGrows | src/flash_write.c:58-92 | A word not attempted since the last verified erase may be attempted without breaking the once-only history. |
| Flash.NotAttempted | src/flash_write.c:58-92 | Between an old attempt and the present of an unattempted word lies a verified erase of its page. |
| Flash.MarkOne | src/flash_write.c:58-92 | Setting one bit of the 128-byte bitmap adds exactly one (page, word) pair. |
| FlashWrite.Writer.Operate | src/flash_write.c:31-119 | Over every sequence of calls: the bitmap covers every program command since the last verified erase of its page, no word has two, known pages hold exactly the image with every unused word erased; result, trace, image and commands of each call; each failure's cause; refused calls change nothing; failures are retained; a refusal as not erased cannot arise. |
| FlashWrite.Writer.NvErase | src/flash_write.c:121-124 | A successful erase blanks exactly its page and makes it known. |
| FlashWrite.Writer.NvProgram | src/flash_write.c:126-130 | A successful program writes exactly its word, of a known page, not used before. |
| FlashWrite.Writer.Verify | src/flash_write.c:93-105 | The page loop compares every byte in order; success means all agree, failure names the first that differs. |
| FlashWrite.HistoryMarks | src/flash_write.c:58-92 | Marking a fresh word keeps the history, with or without its attempt. |
| FlashWrite.HistoryCleared | src/flash_write.c:106-109 | Clearing a page's half after a verified erase keeps it. |
| FlashWrite.FaithfulWritten | src/flash_write.c:81-105 | A verified program keeps every known page faithful. |
| FlashWrite.FaithfulBlanked | src/flash_write.c:87-109 | A verified erase makes its page known and faithful and leaves the other as it was. |
| FlashWrite.ReadsBack | src/flash_write.c:31-119 | In a known page every used word reads back as programmed and every unused word as FF. |
| FlashWrite.UnusedReads | src/flash_write.c:83-86 | An unused word of a known page is erased in the flash itself, so that its program is never refused as not erased. |
| ClockSelect.Clock.SelectInit | src/clock.c:114-148 | For every hardware response sequence: exactly which found registers are refused as unsupported; the command asked for, in bits; at most the limit of polls per wait, zero, one or two writes, every failure after the first write restores the saved command exactly once, and a confirmed rollback has seen the requested source after the request and then, after the restoring write, the full saved setting. |
| ClockSelect.Clock.RequestAndWait | src/clock.c:82-113 | One write, bounded polls; success means the command was seen settled after the write, within the time limit. |
| ClockSelect.Clock.Judge | src/clock.c:92-112 | One poll's verdict, in the source's order, the modular deadline test proved to be the elapsed test. |
| ClockSelect.VerdictSays | src/clock.c:92-112 | What a verdict means: success shows the setting in its bits no later than the deadline, equality included; a wait goes on only before its deadline. |
| ClockSelect.EffectiveBits | src/clock.c:35-41 | A settled status is its command but for a full tick speed, which the slower source clamps to half. |
| ClockSelect.SupportedIs | src/clock.c:118-135 | Which found settings are supported, in bits. |
| ClockSelect.RollsBack | src/clock.c:137-147 | Request, failure and restoration make exactly the promised outcome. |
| ClockSelect.SeenBeforeRestored | src/clock.c:137-147 | In a confirmed rollback the requested source is seen strictly before the saved setting, and that after the restoring write. |
| ClockSelect.ExpiredIs | src/clock.c:82-113 | The modular deadline test is the elapsed-time test. |
| ClockSelect.SeenSplit | src/clock.c:82-147 | Having seen the source is having seen it in one wait or the other. |
| BdbSpec.FreshReady | src/bdb_join.c:211-369 | A fresh run is READY only after scanning, associating, installing, a network key in time, announcing and so on through every phase in order, with Trust Center key and confirmation in time. |
| BdbSpec.FreshByRoute | src/bdb_join.c:211-369 | Every phase of a fresh run is entered only by way of all the phases before it. |
| BdbSpec.RecoveredReady | src/bdb_join.c:248-342 | A resumed run is READY only after a Rejoin Response and then a second install, announcement and parent exchange; persisted membership alone never suffices. |
| BdbSpec.AfterReady | src/bdb_join.c:225-230 | Once READY, a live run is READY, updating or reinstalling. |
| BdbSpec.LeaveJustified | src/bdb_join.c:50-73 | A durable Leave follows only an address conflict, an accepted request to leave, or abandonment of a fresh run that was never READY and did not merely exhaust its work. |
| BdbSpec.ResumedDeparts | src/bdb_join.c:64-66 | A resumed run gives up its durable keys if and only if its latest failure is an address conflict or a request to leave. |
| BdbJoin.CleanupDecides | src/bdb_join.c:663-690 | A failed resumed run, at every cleanup: it waits exactly while the transport is busy or its completion unconfirmed; it enters LEAVING exactly for those two causes with readable keys not yet left and the Leave queued; otherwise it ends. |
| BdbWitness.RecoveryLeaves | src/bdb_join.c:402-690 | A run of the controller from construction, call by call: resume, install, RECOVERING, an address conflict, the cleanup; it ends in LEAVING. |
| BdbStep.RefusedStop | src/bdb_join.c:211-240 | Against arbitrary children: the device object goes on after a failure whose stop was refused exactly on a Leave or an uncancelled update; the run then ends ABORTING if and only if the application's confirmation fails too and the second stop is accepted, else FAULT. |
| BdbStep.FaultReplaced | src/bdb_join.c:402-690 | The same of the whole step, exactly; that no other FAULT of a call is ever replaced is a clause of the step itself. |
| BdbSpec.FaultStands | src/bdb_join.c:50-73 | A run that is not led out of FAULT by a mark of its trail is still there. |
| BdbWitness.FaultOverwritten | src/bdb_join.c:402-690 | A run of the controller from construction through a whole recovery to READY, where a told Leave enters FAULT and the same call ends ABORTING; the answers are within the controller's interface, but this repository's transport never gives them. |
| BdbStep.CleanupEnds | src/bdb_join.c:663-690 | A run that is broken off waits, sends its durable Leave, or ends with its keys, each in exactly its cases. |
| BdbPasses.OperationPass | src/bdb_join.c:343-361 | A pass in operation, in the answers' own fields: it ends the run exactly on another query's reply, a refusal, a parent without either keepalive method, the sixth lost reply, or a due request refused for good; otherwise the count of requests and the next deadline are exactly these, 1875000 after a served answer, 312500 after a lost one. |
| BdbPasses.SixLosses | src/bdb_join.c:343-361 | Over any sequence of passes in operation whose replies answer its requests: operation goes on exactly until six keepalives in a row have been lost. |
| BdbPasses.ReportedPass | src/bdb_join.c:218-222 | A failure the device object reports names its cause; conflict and local leave alone give up the keys of any run. |
| BdbPasses.UpdatePass | src/bdb_join.c:223-240 | A leave, an update outside operation and evidence out of time end the run, each with its cause; an update in operation moves it on. |
| BdbPasses.KeyPass | src/bdb_join.c:241-247 | The network key makes a member exactly if in time with its announcement queued; without it the wait ends at its deadline. |
| BdbPasses.AnnouncePass | src/bdb_join.c:248-250 | Where a confirmed announcement leads; a lost one ends the run. |
| BdbPasses.NodePass | src/bdb_join.c:251-262 | The trust centre's description leads on, is asked for again up to three times, or ends the run. |
| BdbPasses.ExchangePass | src/bdb_join.c:263-278 | A key exchange is put once, repeated when lost, ended on the third loss or a deadline without proof. |
| BdbPasses.ProofPass | src/bdb_join.c:279-282 | A proof heard leads on; a wait without it repeats the request up to three times. |
| BdbPasses.ParentPass | src/bdb_join.c:283-304 | The parent's answer opens operation or the network exactly if it keeps its child by a method this device serves. |
| BdbPasses.PermitPass | src/bdb_join.c:305-310 | Operation begins when the opening of the network is confirmed by a ready transport. |
| BdbPasses.RecoverPass | src/bdb_join.c:311-342 | Recovery: refused, ended, waited for, repeated up to three times, or installed again, each in exactly its cases. |
| BdbPasses.InstallPass | src/bdb_join.c:532-632 | An installation step: which confirmation counts, what it must still prove, where it leads and with which wait. |
| BdbPasses.ResumePass | src/bdb_join_init.c:117-124 | Recovery begins as no member, installing the identity under a new token, with its own whole time. |
| BdbPasses.GuardPass | src/bdb_join.c:418-427 | The 4096th step at one instant is the last: how the run then ends, with its keys kept, and how steps are counted otherwise. |
| BdbPasses.OverduePass | src/bdb_join.c:633-635 | Commissioning and recovery end when their whole time is up, operation never for that. |
| BdbPasses.CarryPass | src/bdb_join.c:641-655 | What the transport's own failures do to the run. |
| BdbPasses.FinishPass | src/bdb_join.c:657-662 | An update ends with an idle transport, and the identity is installed under a new token. |
| BdbPasses.PumpPass | src/bdb_join.c:638-656 | The device object is served once for a live run: before the transport if a frame waits, else after it. |
| BdbPasses.SurrenderPass | src/bdb_join.c:663-690 | An application's packet still in the transport is given back, done, once the cleanup has its confirmation. |
| BdbPasses.ServePass | src/bdb_join.c:633-690 | The order of a runtime step, and that a transport failure while leaving, or a failed engine, is its last word. |
| BdbPasses.RunPass | src/bdb_join.c:417-690 | A step from the installation on: the guard first, then the installation or all the rest. |
| BdbPasses.DrainPass | src/bdb_join.c:663-690 | The cleanup in the transport's own answers: when the Leave goes out and when the run is over. |
| BdbJoin.TriedAtMostThrice | src/bdb_join.c:263-531 | The controller's own counters keep every run, whatever the children answer, to at most three scans, associations, key requests, verifications and rejoin requests. |
| BdbJoin.ReadyEarned | src/bdb_join.c:211-369 | The context's own flags tell which of the two routes a READY run has taken. |
| BdbJoin.LeavingEarned | src/bdb_join.c:663-689 | A context that is leaving has such a cause. |
| BdbJoin.StallBounded | src/bdb_join.c:418-428 | At one instant a run leaves the guarded phases within 4097 processed steps. |
| BdbJoin.Commissioning.Step | src/bdb_join.c:402-690 | For arbitrary children: the evidence invariant holds, the past is only extended, FAILED and FAULT absorb, a used-up instant ends the run without a durable Leave; a FAULT entered in the call is left in it exactly under the one condition named, and never otherwise; from installation on the context is exactly the step function's; a failed resumed run leaves the network exactly under its two causes and the cleanup's conditions. |
| BdbJoin.NothingAfterFailed | src/bdb_join.c:412-414 | Every call keeps the controller valid and only extends its past, so whatever calls follow, a run that has FAILED records nothing more. |
| BdbJoin.Commissioning.Fail | src/bdb_join.c:50-73 | Abandonment is decided exactly by result, phase and history. |
| BdbJoin.Commissioning.Install | src/bdb_join.c:181-186 | A new token and deadline, or failure when tokens are used up. |
| BdbJoin.Commissioning.Scanned | src/bdb_join.c:90-179 | Which finished scans are followed by association, which are repeated and which fail. |
| BdbJoin.Commissioning.AssociationStep | src/bdb_join.c:490-531 | Which finished attempts are installed, which repeated, which refused. |
| BdbJoin.Commissioning.InstallStep | src/bdb_join.c:532-632 | One request per token; only its own timely confirmation leads on. |
| BdbJoin.Commissioning.Installed | src/bdb_join.c:548-622 | The phase a confirmed installation earns: recovery, announcement, READY or waiting for the key. |
| BdbJoin.Commissioning.Attend | src/bdb_join.c:223-236 | Trust Center evidence counts only if its frame arrived before the deadline; an update outside READY fails the run. |
| BdbJoin.Commissioning.AwaitKey | src/bdb_join.c:241-247 | The network key leads on exactly if it was in time and the announcement was queued. |
| BdbJoin.Commissioning.Exchanged | src/bdb_join.c:263-278 | Key request and verification: issued once, repeated when lost, failed on the third loss. |
| BdbJoin.Commissioning.Settle | src/bdb_join.c:283-304 | What the parent must answer before READY or before opening the network. |
| BdbJoin.Commissioning.Recover | src/bdb_join.c:311-342 | A refusal ends recovery; recovery is answered only by a Rejoin Response; only that, verified keys and a quiet transport reinstall. |
| BdbJoin.Commissioning.Lapse | src/bdb_join.c:361-368 | What happens when a wait runs out. |
| BdbJoin.Commissioning.Guard | src/bdb_join.c:418-428 | Counts the step at its instant, or ends the run without giving up its keys. |
| BdbJoin.Commissioning.Drain | src/bdb_join.c:663-690 | A durable Leave exactly when abandoned, with readable keys not yet left, and queued. |
| BdbJoin.Commissioning.Receive | src/bdb_join.c:692-770 | A published frame is judged against the deadline at its arrival; the finished, the faulted and the early phases take none. |
| BdbJoin.Commissioning.Commission | src/bdb_join_init.c:34-89 | Fresh commissioning starts exactly from idle with provisioned matching keys. |
| BdbJoin.Commissioning.Resume | src/bdb_join_init.c:97-126 | Recovery starts exactly from idle with persisted membership, as no member. |
| BdbJoin.Commissioning.Send | src/bdb_join.c:772-787 | Application traffic only when READY and one packet at a time. |

## Left out

- NULL pointers, storage address ranges and object overlap checks: Dafny's heap has no such inputs.
- The NWK half of `src/ed_wire.c`, and frame syntax read by the NWK codec: its codec is not part of this model.
- Secure wiping, volatile spills, workspace guards and the CHILD, SHALLOW, WORKSPACE and LEAN variants: memory layout.
- AES and DMA register sequences: the block cipher is an arbitrary function that may fail at any call.
- Interrupt, cache, DMA and clock observations of the flash reader and executor: arbitrary answers.
- Flash.PollDown: running out of polls stops the processor in RAM; the model returns instead and the writer keeps the operation pending for good.
- Flash.Executor.Command: the register-level template copied to RAM is represented by its countdown and its verdict.
- The adapter's slot, first, radio_result, mac_result and has_time diagnostics, which nothing in it reads back.
- MacAdapter.Adapter.Step: assumes that the stamps a step compares are less than half a range apart, as `include/mac_tx_interval.h:30` demands of every true compared gap; what a step does beyond that is not stated.
- The acknowledgement time and the limits that the adapter hands to the radio's attempt: the attempt is an answer.
- MacJoin.Join.Step: the bodies of the transmitter and the poller, and the radio payload of an action, are arbitrary; only kind, token, epoch, generation and deadline of an action are modelled.
- MacAttempt.Attempt.Run: the radio's own attempt is an arbitrary answer; the timebase's status is its answer too.
- BdbJoin.Commissioning.Step: scan, association, transport, device object and key store are answers, so frame filtering by address, candidate tables and stored identities appear only as their verdicts.
- BdbStep.AfterRun: a step from installation on; scanning and association steps are stated by their own contracts.
- BdbJoin.Commissioning.Describe: the number of device object queries is not bounded, because that needs the unseen component to keep its query pending.
- BdbJoin.Commissioning.Run: indirect-delivery polling (`src/bdb_join.c:376-396`) only asks the transport to poll and changes no field that is modelled.
- The default Trust Center key, router-parent, parent-recovery and idle-receiver builds.
- Scan, POLL, transmitter, NWK and APS transport, key store and device object bodies: not part of this model.
- Cleanup error codes of the commissioning controller are kept as set or not set.
- ClockSelect.Clock.SelectInit: the timer is an arbitrary sequence of readings; real elapsed time beyond half its range is not represented.
- Examples, fixtures, board start-up, interrupt primitives, mailbox admission and the debugger interface.
- Strength of the cipher, entropy, radio behaviour and flash endurance: not properties of the code.
