# Verified model of the Concordium signing application

The application is a streaming signer: packets (APDUs) advance one state machine per
instruction, bytes are hashed as they arrive and decoded for review, reviews are shown and
accepted, and the last screen offers to sign. This project models that logic and proves what a
signature commits to, what the user has seen before it, and that flows do not disturb each other.

SHA-256 is modelled by what it has absorbed: a hash context is the sequence of bytes fed to it. A
thrown status word is an outcome that wipes the context and releases the instruction. Where the
source updates a context in place the model is a class whose methods are proved to carry out the
steps of a specification on values (`Valid()` ties the fields to the specification's state), and the
theorems are about runs of those steps. Code that computes values is modelled by functions. Methods
keep the source's branches, constants and status words.

## Modules

- `Bytes`, `Decimal`, `NumberHelpers`, `Hex`, `Status`, `Options`: integers on the wire, digits, displayable text, paginated hexadecimal.
- `Calendar`, `Time`, `TimeText`: the Gregorian calendar, its conversion from seconds, and the release-time row.
- `Cbor`, `CborBlob`: the decoder's cursor after RFC 8949 sections 3 and 4.1, and the memo and data blob.
- `PltGrammar`, `PltParser`, `PltHandler`, `PltFlow`, `PltNormal`, `PltWire`: protocol-level token operations; grammar, reader, in-place parser, packets, what a review determines, and the bytes spelled out.
- `TxHash`, `Schedule`, `ScheduleHandler`, `ScheduleRuns`: scheduled transfers with and without a memo.
- `Contract`, `ContractHandler`, `ContractReview`: initialising and updating a contract instance, and what a review determines.
- `Baker`, `BakerHandler`: configuring a validator.
- `CredentialGrammar`, `CredentialFlow`, `CredentialRuns`, `ProviderRow`, `CredentialHandler`, `ProviderRuns`: updating credentials, with the credential machine nested in it.
- `Latch`, `Flows`, `AppMachines`, `AppRuns`, `Reach`, `Reviews`: the instruction latch, the shared union, and the signing flows inside the whole application, in both directions: a review that is up signs a run of its own flow, and every run of a flow brings up its review.
- `Layouts`: the signed transactions in numbers, independent of the constants of the other modules.
- `DerivationPath`, `ExportKeys`, `TrustedName`, `VerifyAddress`, `TrustedRuns`: paths, key export, trusted names and address review.

`dafny verify dfyconfig.toml` checks everything.

## Assumptions

- No packet is delivered while a reply to the host is pending, that is, while a review is up
  (src/handler/get_public_key.c:28-32, src/handler/export_private_key_new_path.c:374-376). The
  configure-validator flow does not need this: there every packet is refused while parked.
- A command without data reaches the dispatcher as a null pointer and is refused for instructions
  that carry data (src/apdu/dispatcher.c:67-259).
- Key derivation, signatures, random numbers and certificate checks are parameters: functions of the
  path, or facts about a payload. No result depends on what they compute.
- The decoder library behaves as RFC 8949 describes, decoding the next head as soon as it moves on.

## Properties that do not hold, and exactly when they do

- The identity-provider row of an added credential can show digits of an earlier credential
  (`ProviderRuns.ProviderIsShownIff`, `ProviderRuns.ShorterProviderIsMisread`).
- A contract review does not determine what is signed when the name is too long for its row, or
  spells the marker that replaces such a name; the exact condition on one transaction is
  `ContractReview.ReviewIsMisleadingIff`, inputs are `ContractReview.LongNamesShareARow` and
  `ContractReview.MarkerNameSharesARow`.
- A token-operation review never determines the signed bytes among all accepted payloads
  (`PltNormal.EveryReviewIsShared`, inputs in `PltFlow.ReviewIsNotInjective`) and always does among
  payloads in normal form (`PltNormal.NormalReviewsDetermineBytes`); it shows every signed field exactly
  under `PltFlow.EveryFieldIsShown`.
- A rejected trusted name does not always revoke an earlier one (`TrustedRuns.RejectedAttemptKeepsBindingIff`).

## Where code and documentation differ

The model follows the code.

- doc/ins_sign_plt.md has indefinite-length items refused; field names, operation names and address bytes go
  through copying calls that accept chunked strings, and names are compared up to a zero byte.
- Token-operation arguments need not be in shortest form, unlike in the memo blob.
- The `q_cycles == 25` clamp of src/helpers/time.c never fires (`Time.SplitDays`).

## Model

| member | source | states |
|---|---|---|
| `PltParser.ParseInvertsPrint` | src/handler/sign_plt.c:373-514 | A payload is accepted as an operation tree exactly when it is what that tree prints to: one definite array of one single-entry definite map, known field names, required fields present, exponent in -18..0, no byte left over. |
| `PltParser.ParseIsSound` | src/handler/sign_plt.c:373-514 | Whatever is accepted is the print of the tree it was read as, to the last byte, and that tree is valid. |
| `PltParser.ParseIsComplete` | src/handler/sign_plt.c:373-514 | Every valid tree, in any argument widths and any chunking of names and address bytes, is accepted and read back. |
| `PltParser.PrintInjective` | src/handler/sign_plt.c:373-514 | Different trees are different signed bytes. |
| `PltParser.AmountComplete` | src/handler/sign_plt.c:98-154 | The amount reader inverts the printed decimal fraction (tag 4), whatever follows it. |
| `PltParser.AddressComplete` | src/handler/sign_plt.c:204-253 | The address reader inverts the printed address map with or without coin info, whatever follows it. |
| `PltParser.MemoComplete` | src/handler/sign_plt.c:289-371 | The memo reader inverts a memo behind tag 24, whatever follows it; anything else is refused. |
| `PltParser.ChunksComplete` | src/handler/sign_plt.c:204-253 | An indefinite-length string printed in any chunks is read back chunk by chunk. |
| `PltHandler.ParseContext.ParsePltCbor` | src/handler/sign_plt.c:373-514 | The cursor code that fills the context in place returns 0 exactly for the payloads of the grammar, with its fields holding the last occurrence of each kind, and otherwise the status word of the first defect; what the names and numbers of the grammar are is PltWire. |
| `PltHandler.ParseContext.ParseFields` | src/handler/sign_plt.c:410-478 | The loop over the map entries, proved against the grammar of a field list. |
| `PltHandler.ParseContext.ParseField` | src/handler/sign_plt.c:410-478 | One entry: dispatch on its name, the value parsed into the context, the seen flags set. |
| `PltHandler.ParseContext.ParseAmountValue` | src/handler/sign_plt.c:98-154 | Tag 4, a two-element array, exponent in -18..0 and an unsigned significand, or refusal; the context holds the values read. |
| `PltHandler.ParseContext.ParseCoininfoValue` | src/handler/sign_plt.c:156-202 | The coin info is checked and skipped, or refused. |
| `PltHandler.ParseContext.ParseEntries` | src/handler/sign_plt.c:216-253 | The loop over the address entries: each known key once, the 32 data bytes copied. |
| `PltHandler.ParseContext.ParseAddressValue` | src/handler/sign_plt.c:204-253 | Tag 40307, the entries, and data present; the context holds the address. |
| `PltHandler.ParseContext.DecodeMemoCbor` | src/handler/sign_plt.c:289-328 | The byte string holds exactly one definite, displayable text of at most 256 bytes, which the context then holds. |
| `PltHandler.ParseContext.ParseMemoValue` | src/handler/sign_plt.c:330-371 | A memo behind tag 24, proved against its grammar; anything else is refused. |
| `PltFlow.RoundTrip` | src/handler/sign_plt.c:618-762 | From the INIT packet on: any operation with exponent in -18..0, a 32-byte address with or without coin info, an optional memo, its fields in any order, encoded in at most 512 bytes and sent in any split into packets, reaches the signing screen; it shows exactly that operation and the hash covers header, token and exactly its encoding. INIT refuses a longer one. |
| `PltWire.SpelledIsSigned` | src/handler/sign_plt.c:618-762 | The same in bytes: an operation spelled out (its word, the words amount, recipient or target and memo, tags 4, 40307, 40305 and 24, keys 1 and 3, coin 919) in at most 512 bytes, behind a path, a 60-byte header, kind 27, a token of at most 128 bytes and the length, is shown as that operation with its fee estimate, and the hash covers exactly those bytes. |
| `PltWire.SpelledIsParsed` | src/handler/sign_plt.c:373-514 | The spelled bytes of any operation are parsed and reviewed as that operation, its amount, account and memo. |
| `PltWire.PayloadIsSpelled` | src/handler/sign_plt.c:373-514 | The encoding of every operation is the spelled bytes, with no constant of the grammar in them. |
| `PltWire.OperationNames` | src/handler/sign_plt.c:408-429 | Content up to a zero byte names an operation exactly if it is one of the nine words of CIS-7, each its own operation. |
| `PltWire.FieldWords` | src/handler/sign_plt.c:450-467 | Content up to a zero byte names a field exactly if it is amount, recipient, target or memo. |
| `PltNormal.ReviewIsAToken` | src/handler/sign_plt.c:524-607 | The review of any accepted operation has an amount for transfer, mint and burn, an account for transfer and the lists, a memo for a transfer only, within -18..0, 32 bytes and 256 bytes. |
| `PltFlow.RunsKeepInv` | src/handler/sign_plt.c:618-762 | In every run the hash covers header, token and the payload received, and a review is of an operation whose print is the whole declared payload. |
| `PltFlow.PayloadIsReviewed` | src/handler/sign_plt.c:720-759 | Sent in any split, a payload is read back as its operation. |
| `PltFlow.SplitDoesNotMatter` | src/handler/sign_plt.c:720-759 | However the payload is split, the last packet is answered as if it had come in one piece. |
| `PltFlow.EncodedOperationIsReviewed` | src/handler/sign_plt.c:524-607 | The review of an encoded operation is that operation. |
| `PltFlow.LastWins` | src/handler/sign_plt.c:410-478 | Of repeated fields the last one is kept. |
| `PltFlow.EveryFieldIsShown` | src/handler/sign_plt.c:524-607 | Every signed field is on screen if and only if the operation draws a row for each of them and no two of a kind differ: the parser also accepts known fields its operation never shows, and repetitions. |
| `PltFlow.ReviewIsNotInjective` | src/handler/sign_plt.c:373-514 | Concrete inputs: a pause with a memo, and a pause with a wider length, are accepted with the review of a plain pause. |
| `PltNormal.NormalReviewsDetermineBytes` | src/handler/sign_plt.c:373-607 | Among payloads in normal form (shortest arguments, definite strings, bare names, fields in order, none undrawn or repeated, no coin info) two reviews are equal if and only if the signed bytes are. |
| `PltNormal.EveryReviewIsShared` | src/handler/sign_plt.c:373-607 | Among all payloads the device accepts the review never determines the bytes: every one of them has another, of at most 512 bytes, that is accepted and shown the same. |
| `PltNormal.NormalMeansNormalOf` | src/handler/sign_plt.c:373-607 | The check of the normal form, part by part, holds exactly for the one normal payload of each review. |
| `PltNormal.NormalOfIsNormal` | src/handler/sign_plt.c:524-607 | The normal payload of a review is valid, in normal form, and has that review. |
| `PltNormal.NormalIsShort` | src/handler/sign_plt.c:373-607 | A payload in normal form always fits the 512 bytes. |
| `PltFlow.StepKeepsInv` | src/handler/sign_plt.c:618-762 | Every packet keeps the relation between the received bytes, the declared total, the hash and the review. |
| `PltFlow.SignPlt.Handle` | src/handler/sign_plt.c:618-762 | handle_sign_plt: the context, the hash and the answer after a packet are those of the flow; every refusal wipes the context. |
| `PltFlow.SignPlt.HandleTail` | src/handler/sign_plt.c:650-712 | The INIT packet behind its header: token id, declared length and fee, each check with its own status word. |
| `PltFlow.SignPlt.HandleCont` | src/handler/sign_plt.c:720-759 | A CONT packet accumulates, and the one that completes the payload parses it. |
| `Time.SecondsToTm` | src/helpers/time.c:27-93 | Year, month, day, hour, minute, second, weekday and day of the year are the true ones of the proleptic Gregorian calendar; it fails exactly when one of the two range tests does, which no value a scheduled transfer can pass meets. Every other `int` is a 32-bit type here. |
| `Time.YearSum` | src/helpers/time.c:72-72 | The sum of years, in 32-bit arithmetic: no term and no partial sum leaves an `int` within five million cycles, and a scheduled transfer stays within them. |
| `Calendar.NextDay` | src/helpers/time.c:27-93 | The reference calendar: day numbers count dates one by one through the ends of months and years, from 1 January 1970. |
| `Time.RepresentationIsUnique` | src/helpers/time.c:27-93 | A second has one broken-down form, so the conversion is exact and invertible. |
| `Time.SplitDays` | src/helpers/time.c:49-66 | The 400/100/4/1-year counts with their clamps are the calendar's, and the `== 25` clamp never fires. |
| `Time.MarchMonth` | src/helpers/time.c:73-76 | The month loop ends within the table and finds the month that holds the day. |
| `Time.FloorDivRem` | src/helpers/time.c:39-54 | Truncating division corrected to floor, also before 2000-03-01. |
| `Time.DateOfCycles` | src/helpers/time.c:38-90 | The cycle counts and the March-based month name the date of that day number. |
| `TimeText.ReleaseTextInjective` | src/helpers/sign_transfer_schedule.c:37-53 | Distinct accepted release times never render to the same text. |
| `TimeText.ReleaseReadsBack` | src/helpers/time.c:98-188 | Read back at its fixed places the row gives the year, month, day, hour, minute, second and millisecond of the release time. |
| `TimeText.ShowRelease` | src/helpers/sign_transfer_schedule.c:37-53 | A release time is shown in full, or refused by the year test; no overflow throw is reachable. |
| `TimeText.YearOfRelease` | src/helpers/sign_transfer_schedule.c:43-51 | The year test refuses exactly the milliseconds from the year 11900 on. |
| `TimeText.StampLength` | src/helpers/time.c:113-188 | A five-digit year fills the 25-byte buffer to the last byte. |
| `TimeText.TimeToDisplayText` | src/helpers/time.c:139-188 | Date and time text at a moving offset, terminated, or the overflow throw exactly when it does not fit. |
| `TimeText.AppendMilliseconds` | src/helpers/time.c:113-137 | A dot and three digits behind the text, terminated, or the overflow throw exactly when they do not fit. |
| `TimeText.TwoDigits` | src/helpers/time.c:102-111 | prefixWithZero: a number below one hundred as two digits. |
| `Cbor.ReadAfterWrite` | src/helpers/cbor_data_blob.c:82-110 | A head written in any width that holds its argument is read back (RFC 8949 section 3). |
| `Cbor.WriteAfterRead` | src/helpers/cbor_data_blob.c:82-110 | A head that is read is the one that was written. |
| `CborBlob.AcceptedExactly` | src/helpers/cbor_data_blob.c:82-196 | A blob is accepted exactly when it is the shortest-form encoding of an unsigned integer, a negative integer or a displayable text of at most 255 bytes. |
| `CborBlob.ReviewDeterminesBytes` | src/helpers/cbor_data_blob.c:82-196 | Two blobs with the same type label and display text are the same signed bytes, down to -2^64. |
| `CborBlob.ReviewInjective` | src/helpers/cbor_data_blob.c:114-190 | Type label and display text determine the value. |
| `CborBlob.RowsDenote` | src/helpers/cbor_data_blob.c:82-170 | The rows name the kind of item and spell its value in decimal, with a minus for -1 - n; only -2^64 is written as a difference. |
| `Layouts.MemoLayout` | src/helpers/cbor_data_blob.c:82-170 | An accepted memo has at most 257 bytes and is an integer of 64 bits or a displayable text of at most 255 bytes. |
| `Layouts.TextMemoIsAccepted` | src/helpers/cbor_data_blob.c:82-170 | Every displayable text of at most 255 bytes behind 0x60 + length or 0x78 and its length is accepted as itself. |
| `CborBlob.CanonicalMeansShortest` | src/helpers/cbor_data_blob.c:59-74 | The canonicality test holds exactly for the shortest form of RFC 8949 section 4.1. |
| `CborBlob.DisplayFits` | src/helpers/cbor_data_blob.c:114-190 | The display buffer holds every text and its terminator. |
| `CborBlob.CborContext.ParseCompleteCbor` | src/helpers/cbor_data_blob.c:82-196 | The in-place decoder returns success exactly for accepted blobs, and then the two rows show the item. |
| `CborBlob.CborContext.Accumulate` | src/helpers/cbor_data_blob.c:198-239 | Received bytes are appended and counted down; the last one decodes the whole blob. |
| `CborBlob.CborContext.ReadCborInitial` | src/helpers/cbor_data_blob.c:198-218 | First memo packet; received plus outstanding stays the declared length. |
| `CborBlob.CborContext.ReadCborContent` | src/helpers/cbor_data_blob.c:220-239 | Later memo packets; the buffer guard is never reached. |
| `Schedule.StepKeepsInv` | src/helpers/sign_transfer_schedule.c:20-110 | Declared = shown + left in the packet + remaining, and the hash covers exactly head, count and the shown pairs, after every packet and approval. |
| `Schedule.Run` | src/helpers/sign_transfer_schedule.c:20-110 | The states every run of either instruction can reach satisfy the conservation invariant. |
| `Schedule.SignedScheduleIsComplete` | src/helpers/sign_transfer_schedule.c:20-103 | At the signing screen all N >= 1 pairs were hashed and shown in the order sent, in ceil(N/15) packets, and the hash is header, recipient, memo length and memo, N, pairs. |
| `Layouts.ScheduleLayout` | src/helpers/sign_transfer_schedule.c:20-110 | What is signed in numbers: 60-byte header, kind 19 or 24, 32-byte recipient, memo behind two bytes of length, the count, and the pairs as sent in packets of fifteen, eight bytes of time and eight of amount each. |
| `Schedule.EmptyScheduleNeverSigns` | src/helpers/sign_transfer_schedule.c:20-103 | N = 0 never reaches the signing screen. |
| `ScheduleRuns.ShownAreShowable` | src/helpers/sign_transfer_schedule.c:37-53 | In every run, no pair with a release time from the year 11900 on is shown or signed. |
| `Schedule.PairBytesInjective` | src/helpers/sign_transfer_schedule.c:37-60 | A schedule is read back from its bytes in one way. |
| `Schedule.OnePairMoves` | src/helpers/sign_transfer_schedule.c:30-66 | Showing a pair moves its sixteen bytes from the packet to the shown pairs and to nowhere else. |
| `ScheduleRuns.EveryScheduleCanBeSigned` | src/handler/sign_transfer_with_schedule.c:31-83 | Every schedule of 1 to 255 pairs that can be shown, with or without a fee suffix, reaches its signing screen with exactly its bytes hashed. |
| `ScheduleRuns.EveryMemoScheduleCanBeSigned` | src/handler/sign_transfer_with_schedule_and_memo.c:29-123 | The same with any accepted memo in any chunks, though the count arrives before the memo and is hashed after it. |
| `ScheduleRuns.SignedBytesDetermineTransfer` | src/handler/sign_transfer_with_schedule_and_memo.c:29-123 | Two signed transfers of either instruction with the same hash input are the same transfer. |
| `ScheduleHandler.ScheduledTransfer.ProcessNextScheduledAmount` | src/helpers/sign_transfer_schedule.c:20-75 | Hash, time row and amount row of the next pair, in place; both overflow throws on `pos` are dead. |
| `ScheduleHandler.ScheduledTransfer.HandleTransferPairs` | src/helpers/sign_transfer_schedule.c:77-103 | Up to 15 of the pairs still owed are taken from the packet, and the first is shown. |
| `ScheduleHandler.ScheduledTransfer.HandleInitialPlain` | src/handler/sign_transfer_with_schedule.c:41-74 | The initial packet of INS 0x03 sets the counters, the hash and the path. |
| `ScheduleHandler.ScheduledTransfer.HandleInitialMemo` | src/handler/sign_transfer_with_schedule_and_memo.c:40-78 | The initial packet of INS 0x34 keeps the count back. |
| `ScheduleHandler.ScheduledTransfer.HandleMemo` | src/handler/sign_transfer_with_schedule_and_memo.c:79-114 | A memo packet is hashed and accumulated; the last one decodes the memo and hashes the count. |
| `ScheduleHandler.ScheduledTransfer.FinishMemoScheduled` | src/helpers/sign_transfer_schedule.c:105-110 | The count is hashed after the memo. |
| `ScheduleHandler.ScheduledTransfer.HandlePlain` | src/handler/sign_transfer_with_schedule.c:31-83 | INS 0x03: the context after a packet is the flow's, a throw wipes it. |
| `ScheduleHandler.ScheduledTransfer.HandleWithMemo` | src/handler/sign_transfer_with_schedule_and_memo.c:29-123 | INS 0x34: the context after a packet is the flow's, a throw wipes it. |
| `ScheduleHandler.ScheduledTransfer.Approve` | src/handler/sign_transfer_with_schedule.c:26-29 | The approval callbacks: the initial review, or the next pair, whose two rows are then on screen. |
| `TxHash.StartIff` | src/helpers/tx_hash.c:26-82 | A flow starts exactly if its data is a path that may sign, a 60-byte header, the expected kind and the rest; the hash has absorbed header and kind as sent, and node i of the path is the i-th word sent with its top bit set. |
| `TxHash.StartThrows` | src/helpers/tx_hash.c:26-82 | Otherwise the status word of the first defect, the path's or the header's. |
| `Schedule.OpeningIff` | src/helpers/tx_hash.c:88-117 | A transfer opens exactly if it starts and 32 bytes of recipient follow. |
| `Contract.ReviewIffPresented` | src/handler/init_contract.c:29-199 | The review of a name and parameters is reached by exactly the packets that present them: an initial packet, then the name behind its length, then the parameters behind theirs, in any chunks. |
| `Contract.SignedBytesDetermineTransaction` | src/handler/update_contract.c:29-214 | Equal signed bytes of two reviewed flows, of either instruction, are the same instruction, name and parameters. |
| `Layouts.ContractOpens` | src/handler/init_contract.c:29-90 | A flow opens exactly on a path that may sign, a 60-byte header, kind 1 or 2, and 40 or 24 bytes of fixed fields. |
| `Layouts.ContractRows` | src/handler/init_contract.c:119-150 | The name row is the name below 256 bytes and the marker text otherwise; the digest is of name and parameters. |
| `ContractReview.ReviewIsMisleadingIff` | src/handler/init_contract.c:117-147 | Another flow, with the same header, name row and digest, signs other bytes if and only if: the name exceeds 256 bytes and the parameters are not full; or it has at least 256, can grow, and the first parameter byte is displayable; or it spells the marker and the next 224 parameter bytes are displayable; or it has 256 bytes, begins with the marker, and the parameters have room for 224 more. |
| `ContractReview.SharedIff` | src/handler/init_contract.c:117-147 | The same for a name and parameters alone. |
| `ContractReview.RowsDetermineFields` | src/handler/init_contract.c:117-147 | Otherwise row and digest determine name and parameters, in particular for every name below 256 bytes other than the marker. |
| `ContractReview.EveryAdmissibleIsReviewed` | src/handler/update_contract.c:29-214 | Every displayable name and every parameters of at most 65535 bytes are presented by some packets and reviewed. |
| `ContractReview.LongNamesShareARow` | src/handler/init_contract.c:136-143 | Concrete packets: with names too long to display, a byte moved between name and parameters changes what is signed and nothing that is shown. |
| `ContractReview.MarkerNameSharesARow` | src/handler/init_contract.c:136-143 | Concrete packets: a short name that spells the marker is shown like a name too long to display. |
| `ContractHandler.ContractContext.HandleName` | src/handler/init_contract.c:89-147 | Name packets in place: counters, hash, digest and text buffer stay in step with the flow. |
| `ContractHandler.ContractContext.RetainName` | src/handler/init_contract.c:124-130 | The name buffer is appended to and terminated without overflow. |
| `ContractHandler.ContractContext.FinishName` | src/handler/init_contract.c:136-146 | The row shows the exact name whenever it is shorter than 256 bytes, else the marker. |
| `ContractHandler.ContractContext.AnnounceName` | src/handler/init_contract.c:92-108 | The announced name length, and the refusal of a packet that carries more than is left. |
| `ContractHandler.ContractContext.HandleParams` | src/handler/init_contract.c:148-194 | Parameter packets in place; the last one brings up the review. |
| `ContractHandler.ContractContext.HandleInitial` | src/handler/update_contract.c:36-101 | The initial packet: hash, fixed fields and their rows. |
| `ContractHandler.ContractContext.HashFixedFields` | src/handler/update_contract.c:52-91 | The amount with the module reference, or with the index and sub-index, hashed and kept for display. |
| `ContractHandler.ContractContext.Handle` | src/handler/init_contract.c:29-199 | INS 0x07 and 0x08: the context after a packet is the flow's, a throw wipes it. |
| `Baker.SignedConfigurationIsComplete` | src/handler/sign_configure_baker.c:116-447 | When signing is offered the hash is header, kind, bitmap and each declared field exactly once in fixed order, URL bytes exactly as announced, and at least one field is declared. |
| `Baker.EveryConfigurationCanBeSigned` | src/handler/sign_configure_baker.c:116-447 | Every valid non-empty configuration, its URL in any chunks, reaches the signing screen with exactly its serialisation hashed. |
| `Baker.SerializeInjective` | src/handler/sign_configure_baker.c:145-441 | A payload is the serialisation of one configuration only. |
| `Baker.EveryConfigurationHasARun` | src/handler/sign_configure_baker.c:187-443 | The same event by event: a run of those packets and the approvals between them ends at the signing screen. |
| `Baker.BitmapBits` | src/handler/sign_configure_baker.c:150-180 | Bit by bit: capital 1, restake 2, delegation 4, keys 8, URL 16, the rates 32, 64, 128, suspension 256. |
| `Layouts.ConfigurationLayout` | src/handler/sign_configure_baker.c:105-443 | What is signed in numbers: header, kind 25, the bitmap as the sum of the declared bits, the declared fields in order, each within its size and limit. |
| `Layouts.KeysDigest` | src/handler/sign_configure_baker.c:256-330 | The digest shown of the keys is of the two 32-byte keys and the 96-byte key, without their proofs. |
| `Baker.ParkedRefusesPackets` | src/handler/sign_configure_baker.c:50-60 | While a review is parked every packet is refused. |
| `Baker.ParkedPacketEndsTheFlow` | src/handler/sign_configure_baker.c:50-60 | In any run, a packet pushed in while a review is up ends the flow for good: whatever follows, nothing is offered to sign. |
| `Baker.StepKeepsInv` | src/handler/sign_configure_baker.c:116-447 | A field has been received exactly if it was declared and its stage is over. |
| `Baker.Run` | src/handler/sign_configure_baker.c:116-447 | Every state of every run satisfies that invariant. |
| `Baker.StageCompletes` | src/handler/sign_configure_baker.c:187-443 | From any stage on, the packets of a configuration lead to its signing screen. |
| `Baker.BitmapRoundTrip` | src/handler/sign_configure_baker.c:150-166 | The nine flags are the bits of the bitmap, for all 512 of them. |
| `Baker.FlagsRoundTrip` | src/handler/sign_configure_baker.c:158-166 | Different flags are different bitmaps. |
| `BakerHandler.BakerContext.FirstDisplay` | src/ui/display_nbgl.c:447-532 | The first review offers signing exactly if no stage follows. |
| `BakerHandler.BakerContext.UrlDisplay` | src/ui/display_nbgl.c:534-600 | A URL review offers signing exactly on its last page with no stage behind it. |
| `BakerHandler.BakerContext.CommissionDisplay` | src/ui/display_nbgl.c:343-411 | The commission review offers signing exactly if no suspension follows. |
| `BakerHandler.BakerContext.HandleInitial` | src/handler/sign_configure_baker.c:127-186 | Header, kind and bitmap; an empty bitmap leaves the flow where it was. |
| `BakerHandler.BakerContext.HandleFirst` | src/handler/sign_configure_baker.c:187-300 | The first batch, hashed, and parked or passed on; the rows say No or Yes, and Open for all, Closed for new or Closed for all, exactly for the bytes hashed. |
| `BakerHandler.BakerContext.TakeRestake` | src/handler/sign_configure_baker.c:210-226 | The restake byte is hashed; the row is No exactly for 0 and Yes exactly for 1, anything else is refused. |
| `BakerHandler.BakerContext.TakeOpen` | src/handler/sign_configure_baker.c:228-254 | The delegation byte is hashed; the row is Open for all, Closed for new or Closed for all exactly for 0, 1 or 2, anything else is refused. |
| `BakerHandler.BakerContext.HashKeys` | src/handler/sign_configure_baker.c:252-278 | Keys and proofs are all hashed, only the keys digested. |
| `BakerHandler.BakerContext.HandleAggregation` | src/handler/sign_configure_baker.c:301-341 | The aggregation key and its proof; the digest of the three keys is complete and the rows of the first batch are still those of its bytes. |
| `BakerHandler.BakerContext.HandleUrlLength` | src/handler/sign_configure_baker.c:342-371 | The announced URL length is hashed; an empty URL is reviewed at once. |
| `BakerHandler.BakerContext.HandleUrl` | src/handler/sign_configure_baker.c:372-415 | A URL chunk is hashed, counted down and shown exactly. |
| `BakerHandler.BakerContext.HandleCommissionRates` | src/handler/sign_configure_baker.c:62-114 | Declared rates in order, each at most a whole. |
| `BakerHandler.BakerContext.HandleSuspended` | src/handler/sign_configure_baker.c:420-443 | The suspension byte, the last stage. |
| `BakerHandler.BakerContext.AwaitConfirm` | src/handler/sign_configure_baker.c:50-53 | Parking remembers the stage to resume at. |
| `BakerHandler.BakerContext.ConfirmStage` | src/handler/sign_configure_baker.c:55-60 | Approval resumes at the parked stage with the hash unchanged. |
| `BakerHandler.BakerContext.Handle` | src/handler/sign_configure_baker.c:116-447 | The context and the answer after a packet are those of the flow, the sign-or-continue choice included; a throw wipes the context. |
| `CredentialRuns.SignedUpdateIsReviewed` | src/handler/sign_update_credential.c:40-123 | At the threshold screen the hash is header, count, that many credentials, id count, ids and threshold, and the user has accepted exactly the screens of that update, each credential and each attribute once. |
| `CredentialGrammar.PayloadInjective` | src/handler/sign_update_credential.c:40-123 | A payload is the serialisation of one update only. |
| `Layouts.UpdateLayout` | src/handler/sign_update_credential.c:28-124 | What is signed in numbers: header, kind 20, the new credentials behind their number, the removed 48-byte ids behind theirs, and the threshold. |
| `Layouts.CredentialLayout` | src/handler/sign_credential_deployment.c:164-521 | A credential in numbers: sizes, counts and order of its parts, and where the identity provider stands. |
| `CredentialRuns.EveryUpdateCanBeSigned` | src/handler/sign_update_credential.c:28-124 | Every valid update, with any number of credentials, keys, revokers, attributes, proof bytes and ids, reaches its signing screen with exactly its payload hashed and its screens accepted. |
| `CredentialRuns.RunsKeepInv` | src/handler/sign_update_credential.c:28-124 | Every state of every run satisfies the invariant that ties hash, counters and accepted screens. |
| `CredentialRuns.EveryStepDecreases` | src/handler/sign_credential_deployment.c:187-470 | Each accepted packet or approval strictly decreases (credentials left, stages left, rest of the stage), so every flow ends. |
| `CredentialRuns.ZeroCountsAreStuck` | src/handler/sign_credential_deployment.c:196-202 | After a declared key or revoker count of zero no event is accepted. |
| `CredentialRuns.ZeroCountsNeverSign` | src/handler/sign_credential_deployment.c:187-202 | A run that has declared zero keys or zero revokers does not continue and never reaches its signing screen. |
| `CredentialRuns.EveryUpdateHasARun` | src/handler/sign_update_credential.c:28-124 | The same, event by event: every valid update has a run that ends at its signing screen. |
| `CredentialRuns.EveryAddedWasReviewed` | src/handler/sign_credential_deployment.c:441-470 | In every run, each added credential was under review by itself before it was added. |
| `CredentialFlow.ApprovalsSucceed` | src/handler/sign_credential_deployment.c:25-35 | The throws of the approval callbacks and the zero-key branch are dead. |
| `CredentialFlow.LeftoversAreImpossible` | src/handler/sign_credential_deployment.c:226-231 | The throws for leftover keys and for no attributes left are dead. |
| `CredentialFlow.PacketKeepsInv` | src/handler/sign_credential_deployment.c:164-470 | Every packet keeps the invariant. |
| `CredentialGrammar.SplitCredential` | src/handler/sign_credential_deployment.c:187-470 | A credential is a prefix code: it is cut off the front of any byte string in one way. |
| `ProviderRow.RowIsExactIff` | src/handler/sign_credential_deployment.c:256-259 | The identity-provider row is exact if and only if the provider has at most eight digits and no provider written before it in the transaction had more: the digits are written over the old ones without a terminator. |
| `ProviderRow.ShorterProviderIsMisread` | src/handler/sign_credential_deployment.c:256-259 | Concrete input: the buffer after providers 12345 and 67 holds the digits of 67345. |
| `ProviderRuns.ProviderIsShownIff` | src/handler/sign_credential_deployment.c:256-259 | Over all runs, credential i of an update is reviewed with the right provider if and only if its provider has at most eight digits and no credential before it had more. |
| `ProviderRuns.ShorterProviderIsMisread` | src/handler/sign_credential_deployment.c:256-259 | Concrete inputs: every update whose first two credentials have providers 12345 and 67 has a run that reviews the second with provider 67345. |
| `ProviderRow.BufferShape` | src/handler/sign_credential_deployment.c:256-259 | After any providers, the buffer holds as many digits as the longest of them. |
| `CredentialHandler.CredentialContext.AddedCredentialIsShown` | src/ui/display_nbgl.c:710-752 | The review of an added credential shows its last key, both thresholds, the registration id and the digest of all its revokers, and the provider exactly under that condition. |
| `CredentialHandler.OutOfIsSpelled` | src/handler/sign_credential_deployment.c:265-292 | The words between the two numbers of the threshold row. |
| `CredentialHandler.CredentialContext.Handle` | src/handler/sign_update_credential.c:28-124 | The context after a packet is the flow's, a throw wipes it. |
| `CredentialHandler.CredentialContext.HandleCredential` | src/handler/sign_credential_deployment.c:164-521 | The nested machine, as the update reaches it. |
| `CredentialHandler.CredentialContext.HandleInitial` | src/handler/sign_update_credential.c:40-65 | Header, kind and the number of credentials. |
| `CredentialHandler.CredentialContext.HandleId` | src/handler/sign_update_credential.c:97-109 | An id is hashed, shown in paginated hexadecimal and counted down. |
| `CredentialHandler.CredentialContext.HandleKey` | src/handler/sign_credential_deployment.c:196-222 | Every key but the last parks the flow under its own review. |
| `CredentialHandler.CredentialContext.ParseVerificationKey` | src/handler/sign_credential_deployment.c:109-135 | Index, scheme and key are hashed and the key is shown. |
| `CredentialHandler.CredentialContext.HandleDetails` | src/handler/sign_credential_deployment.c:224-297 | The details in place: each check with its own status word, every row written. |
| `CredentialHandler.CredentialContext.WriteRevocationThreshold` | src/handler/sign_credential_deployment.c:264-293 | The threshold row never overflows its 17 bytes. |
| `CredentialHandler.CredentialContext.WriteProvider` | src/handler/sign_credential_deployment.c:256-259 | A provider of ten digits overflows, any other is written over the buffer. |
| `CredentialHandler.CredentialContext.HandleRevoker` | src/handler/sign_credential_deployment.c:298-351 | A revoker is hashed and digested; the last one ends the list. |
| `CredentialHandler.CredentialContext.HandleDates` | src/handler/sign_credential_deployment.c:352-377 | Dates, and the number of attributes. |
| `CredentialHandler.CredentialContext.HandleTag` | src/handler/sign_credential_deployment.c:378-405 | An attribute's tag and length. |
| `CredentialHandler.CredentialContext.HandleValue` | src/handler/sign_credential_deployment.c:406-429 | An attribute's exact value is reviewed before the list goes on. |
| `CredentialHandler.CredentialContext.HandleProofLength` | src/handler/sign_credential_deployment.c:430-440 | The length of the proofs is hashed. |
| `CredentialHandler.CredentialContext.HandleProofs` | src/handler/sign_credential_deployment.c:441-470 | Proof packets; the last one brings up the credential, NEW_OR_EXISTING is never entered. |
| `CredentialHandler.CredentialContext.ProcessNextVerificationKey` | src/handler/sign_credential_deployment.c:25-35 | The approval of a key. |
| `CredentialHandler.CredentialContext.GoOn` | src/ui/display_nbgl.c:142-148 | Approving the first screen or an id is never refused and leaves the context as the flow's approval does. |
| `CredentialHandler.CredentialContext.ConfirmAttribute` | src/handler/sign_credential_deployment.c:80-92 | The approval of an attribute. |
| `CredentialHandler.CredentialContext.ConfirmAddedCredential` | src/handler/sign_credential_deployment.c:94-107 | The approval of an added credential. |
| `Latch.RunsAreIsolated` | src/app_main.c:100-150 | Over all runs, while an instruction holds the latch the union, the globals and the screen are what that instruction alone makes of its own inputs from a wiped union. |
| `Latch.CommandsAreServed` | src/app_main.c:67-150 | A command of class 0xE0 that has what its instruction asks for reaches its handler: as an initial call on a wiped union when no flow is open, on the union as it is within its own flow; a throw wipes the union and releases the latch. |
| `Latch.OthersAreNotServed` | src/apdu/dispatcher.c:67-259 | Every other command calls no handler: another class changes nothing, an unknown instruction leaves no flow open, a malformed command leaves its own. |
| `Latch.SwitchEndsTheFlow` | src/apdu/dispatcher.c:75-80 | In any run, a command of another instruction ends the open flow without calling a handler, and the next command is an initial call on a wiped union. |
| `Latch.AnswersAreTaken` | src/ui/display_nbgl.c:95-160 | An approval reaches the open flow's callback; a rejection or the main screen leaves no flow open. |
| `Reach.TrackedIsReached` | src/app_main.c:67-150 | From an idle application, the commands and approvals that lead a flow anywhere lead the whole application there. |
| `Reach.ContractRunIsReached` | src/handler/init_contract.c:29-199 | The packets of any run of INS 0x07 or 0x08, as commands, take an idle application to the state, path and hash of that run. |
| `Reach.PltRunIsReached` | src/handler/sign_plt.c:618-762 | The same for INS 0x27. |
| `Reach.BakerRunIsReached` | src/handler/sign_configure_baker.c:105-443 | The same for INS 0x18, with its approvals. |
| `Reach.ScheduleRunIsReached` | src/helpers/sign_transfer_schedule.c:20-110 | The same for INS 0x03 and 0x34, with their approvals. |
| `Reach.CredentialRunIsReached` | src/handler/sign_update_credential.c:28-124 | The same for INS 0x31, with its approvals. |
| `Reviews.ContractIsReviewed` | src/handler/init_contract.c:29-199 | Every displayable name and parameters behind a well-formed initial packet bring up a review in the whole application that signs header, fixed fields, name and parameters. |
| `Reviews.OperationIsReviewed` | src/handler/sign_plt.c:618-762 | Every token operation spelled in at most 512 bytes brings up a review of that operation that signs exactly its bytes. |
| `Reviews.ConfigurationIsReviewed` | src/handler/sign_configure_baker.c:187-443 | Every valid validator configuration brings up a last review that signs exactly its serialisation. |
| `Reviews.ScheduleIsReviewed` | src/helpers/sign_transfer_schedule.c:20-110 | Every schedule of 1 to 255 pairs that can be shown brings up a last review that signs all of it. |
| `Reviews.MemoScheduleIsReviewed` | src/handler/sign_transfer_with_schedule_and_memo.c:29-123 | The same with any accepted memo in any chunks. |
| `Reviews.UpdateIsReviewed` | src/handler/sign_update_credential.c:28-124 | Every valid credential update brings up a last review that signs exactly its payload, its screens accepted. |
| `Latch.StepKeepsIsolation` | src/apdu/dispatcher.c:67-259 | Every command, approval, rejection and return to the main screen keeps that, across throws, refusals and instruction switches. |
| `Latch.GlobalsAreOwn` | src/helpers/tx_hash.c:119-130 | A flow that starts afresh works with a path and a hash of its own. |
| `Latch.SigningStateIsOwn` | src/helpers/tx_hash.c:119-130 | What an approval of an open review signs with depends on that flow's inputs alone. |
| `Latch.Application.Receive` | src/app_main.c:100-150 | The loop body: a command that is to be served reaches its handler, on a wiped union if no flow was open; another instruction ends the open flow; another class changes nothing. |
| `Latch.Application.DispatchGuarded` | src/app_main.c:67-96 | Guard, data checks, handler; a served command of the open flow reaches its handler, and a throw wipes the union and releases the latch. |
| `Latch.Application.RunGuarded` | src/helpers/ux_guard.c:11-43 | An approval callback, guarded the same way. |
| `Latch.Application.RejectReview` | src/ui/display_nbgl.c:137-140 | A rejection releases the latch. |
| `Latch.Application.MenuMain` | src/ui/menu_nbgl.c:54-72 | Going back to the main screen releases the latch and touches nothing else of the state. |
| `Flows.OpenFlowIsTracked` | src/app_main.c:139-148 | An open flow whose handler refines a machine is, with its globals and its screen, where the machine alone would be. |
| `Flows.RefiningStartsAfresh` | src/helpers/tx_hash.c:119-130 | Such a flow starts afresh: its first accepted step depends on no globals left by another. |
| `AppRuns.FlowsStartAfresh` | src/helpers/tx_hash.c:119-130 | The seven signing flows (INS 0x03, 0x07, 0x08, 0x18, 0x27, 0x31, 0x34) start afresh. |
| `AppRuns.SignatureIsOwn` | src/helpers/tx_hash.c:119-130 | In any run of the application, what an approval of an open review of these flows signs with is what the flow's own commands make of any globals at all. |
| `AppRuns.ContractSignatureIsItsOwn` | src/helpers/tx_hash.c:119-130 | Whatever ran before and whatever other instructions do: at a contract review the path and hash to be signed are those of one run of that flow's own packets from a fresh state. |
| `AppRuns.PltSignatureIsItsOwn` | src/helpers/tx_hash.c:119-130 | The same for token operations: the hash is header, token and the printed operation under review. |
| `AppRuns.BakerSignatureIsItsOwn` | src/helpers/tx_hash.c:119-130 | The same for configuring a validator: at the last review the hash is one whole configuration. |
| `AppRuns.ScheduleSignatureIsItsOwn` | src/helpers/tx_hash.c:119-130 | The same for scheduled transfers with and without a memo: at the last review the hash is one whole transfer. |
| `AppRuns.CredentialSignatureIsItsOwn` | src/helpers/tx_hash.c:119-130 | The same for updating credentials: at the last review the hash is one whole update, its screens accepted. |
| `AppRuns.ScheduleIsSound` | src/apdu/dispatcher.c:67-259 | The schedule's steps keep its invariant, hand over their own path and hash, and claim none when the union is wiped. |
| `AppRuns.BakerIsSound` | src/apdu/dispatcher.c:67-259 | So do the steps of configuring a validator, an empty bitmap included. |
| `AppRuns.CredentialIsSound` | src/apdu/dispatcher.c:67-259 | So do the steps of updating credentials. |
| `AppRuns.PltIsSound` | src/apdu/dispatcher.c:231-237 | So do those of token operations. |
| `AppRuns.ContractIsSound` | src/apdu/dispatcher.c:213-224 | So do those of the contract flows. |
| `AppRuns.FlowHandlersRunFlows` | src/apdu/dispatcher.c:67-259 | Handlers that run all these flows as the theorems ask exist. |
| `DerivationPath.PathTextInjective` | src/helpers/derivation_path.c:227-256 | The full path display is injective up to the hardened bit. |
| `DerivationPath.PathTextLength` | src/helpers/derivation_path.c:227-256 | Eight nodes never reach the end of the 104-byte row. |
| `DerivationPath.WireRoundTrip` | src/helpers/derivation_path.c:11-35 | Nodes written to the wire are the nodes read, whatever follows. |
| `DerivationPath.ParsedIff` | src/helpers/derivation_path.c:191-212 | Data is parsed as a path exactly if it spells it: at most eight big-endian nodes behind their number, each with its top bit set whatever was sent; it is refused exactly if bytes are missing, the depth exceeds eight, or it is 44/_/_/_/5/_. |
| `DerivationPath.PathTextOfTwo` | src/helpers/derivation_path.c:227-256 | The text of a path, first node in front, each with a quote. |
| `DerivationPath.NetworkIgnoresHardening` | src/helpers/derivation_path.c:120-140 | Network and variant are the same before and after hardening. |
| `DerivationPath.DerivationPath.ParseFromBuffer` | src/helpers/derivation_path.c:11-35 | The wire parse into the node array, or the throw. |
| `DerivationPath.DerivationPath.DetectVariant` | src/helpers/derivation_path.c:105-118 | The variant follows from the first node. |
| `DerivationPath.DerivationPath.Parse` | src/helpers/derivation_path.c:200-212 | parse_derivation_path, exportable shapes refused. |
| `DerivationPath.DerivationPath.DisplayFull` | src/helpers/derivation_path.c:227-256 | The row shows the whole path, never truncated. |
| `ExportKeys.SignableExports` | src/handler/export_private_key_new_path.c:36-59 | A path that INS 0x37 exports from can be signed with if and only if its key is not handed out raw. |
| `ExportKeys.ParsedPathIsNotExportable` | src/helpers/derivation_path.c:191-212 | parse_derivation_path never returns a path whose raw extended key is exported. |
| `ExportKeys.ExportSplits` | src/handler/export_private_key_new_path.c:61-214 | A successful export is a uniquely splittable list of (length, key) records holding every key. |
| `ExportKeys.PurposeReleases` | src/handler/export_private_key_new_path.c:62-212 | What each of the five purposes releases, in order, with the derivation paths written out for both networks. |
| `ExportKeys.NoOverflow` | src/handler/export_private_key_new_path.c:120-175 | With the caller's 195 bytes no overflow throw is reachable. |
| `ExportKeys.EveryPurposeFits` | src/handler/export_private_key_new_path.c:93-118 | Every purpose fits those 195 bytes. |
| `ExportKeys.ExportForPurpose` | src/handler/export_private_key_new_path.c:61-214 | The loop into the output buffer; on failure the buffer is all zero and the status word is passed on. |
| `TrustedRuns.AcceptedAnswersFreshChallenge` | src/handler/set_trusted_name.c:353-364 | Over all runs an accepted SET answers the last challenge issued, non-zero, with no attempt since. |
| `TrustedRuns.AcceptedIff` | src/handler/set_trusted_name.c:280-478 | Over all runs an attempt is accepted if and only if its parameters are zero, it has data, its descriptor is signed and authorised, field by field, and its challenge is that of the last GET_CHALLENGE, not zero, with no attempt since. |
| `TrustedRuns.OneAcceptancePerChallenge` | src/handler/set_trusted_name.c:407-478 | Between two accepted SETs a challenge was issued: each admits one at most. |
| `TrustedRuns.AttemptsSpendChallenges` | src/handler/set_trusted_name.c:390-478 | Over all runs, after an attempt of any outcome an accepted SET answers a later challenge. |
| `TrustedRuns.RejectedAttemptKeepsBindingIff` | src/handler/set_trusted_name.c:407-478 | Over all runs, a rejected SET leaves an earlier binding in force if and only if it was malformed. |
| `TrustedRuns.MalformedAttemptIsHarmlessToBinding` | src/handler/set_trusted_name.c:413-420 | A malformed attempt changes no later address review. |
| `TrustedRuns.BindingWasAccepted` | src/handler/set_trusted_name.c:456-478 | A binding in force comes from one accepted, authorised descriptor, untried since. |
| `TrustedRuns.BindingsAreTriedOnce` | src/handler/verify_address.c:395-408 | Each binding is matched against one reviewed path at most. |
| `TrustedRuns.CertifiedReview` | src/handler/verify_address.c:311-410 | A review under a binding shows the certified name, on the certified network and for the certified key, and the address is derived from the path or the path is signing-shaped. |
| `TrustedName.SetSpendsTheChallenge` | src/handler/set_trusted_name.c:390-478 | An attempt is accepted exactly if it is well formed and its descriptor is signed, authorised and answers the stored challenge, which is spent in every outcome. |
| `TrustedName.RejectionKeepsBindingIff` | src/handler/set_trusted_name.c:413-422 | A rejected SET leaves an earlier binding in force if and only if it was rejected for its parameters or for carrying no data. |
| `TrustedName.AfterIsTheOrder` | src/handler/set_trusted_name.c:270-278 | The version comparison is the order of versions, the cutoff inclusive. |
| `TrustedName.VerifyFields` | src/handler/set_trusted_name.c:280-351 | The checks one by one amount to the authorisation of the descriptor. |
| `TrustedName.TrustedNames.VerifyChallenge` | src/handler/set_trusted_name.c:353-364 | A stored challenge of zero matches nothing. |
| `TrustedName.TrustedNames.HandleSetTrustedName` | src/handler/set_trusted_name.c:407-478 | 0x9000 is answered exactly for a well-formed attempt with a signed, authorised descriptor that answers the stored challenge; the binding is then its name, key and network. |
| `TrustedName.TrustedNames.HandleGetChallenge` | src/handler/get_challenge.c:14-23 | The nonce becomes the stored challenge. |
| `TrustedName.TrustedNames.ClearTrustedNameBinding` | src/handler/set_trusted_name.c:399-405 | The binding is cleared, the challenge is not. |
| `VerifyAddress.RowsDeterminePath` | src/handler/verify_address.c:332-364 | Labels and path row determine the path keys are derived from and the counter. |
| `VerifyAddress.ReviewedPathIs` | src/helpers/derivation_path.c:44-278 | Which commands name a path, and for each format the nodes, the counter, the network and the row, told from the bytes of the command. |
| `VerifyAddress.ShownAddressIsGenuine` | src/handler/verify_address.c:366-410 | A shown address is derived from the path and counter shown, or certified for a signing path. |
| `VerifyAddress.TryingClears` | src/handler/verify_address.c:399-408 | Trying a binding clears it, and nothing else in the command changes it. |
| `VerifyAddress.AddressReview.HandleVerifyAddress` | src/handler/verify_address.c:311-410 | The command in place: address, network and path rows, the binding and the answer. |
| `VerifyAddress.AddressReview.PkiBindDescriptor` | src/handler/verify_address.c:192-235 | Chain, key and name checks; on success the address row is the certified name. |
| `VerifyAddress.AddressReview.ReadKeyPath` | src/handler/verify_address.c:128-163 | The three path formats, with their refusals and throws. |
| `VerifyAddress.AddressReview.ReadNew` | src/helpers/derivation_path.c:44-75 | The compact new format. |
| `VerifyAddress.AddressReview.ReadLegacy` | src/helpers/derivation_path.c:77-103 | The compact legacy format. |
| `VerifyAddress.AddressReview.ShowPath` | src/helpers/derivation_path.c:214-278 | The path row of every format, never truncated. |
| `Hex.PaginatedInjective` | src/helpers/numberHelpers.c:128-151 | What the paginated hexadecimal shows determines the bytes. |
| `Hex.PaginatedAt` | src/helpers/numberHelpers.c:128-151 | Byte i stands at its place as its high digit, then its low digit, with a break behind every eight bytes. |
| `Hex.ToPaginatedHex` | src/helpers/numberHelpers.c:128-151 | The loop writes the paginated text and its terminator within the size its guard asks for; the byte-wide line counter is exact up to 2048 bytes. |
| `Hex.PaginatedLength` | src/helpers/numberHelpers.c:135-137 | Two characters a byte and a break every sixteen. |
| `NumberHelpers.NumberToText` | src/helpers/numberHelpers.c:26-41 | Digits at an offset without a terminator, the rest of the buffer untouched, or the overflow throw. |
| `NumberHelpers.BinToDec` | src/helpers/numberHelpers.c:60-67 | Digits and a terminator, or the overflow throw. |
| `Decimal.DecInjective` | src/helpers/numberHelpers.c:26-41 | Different numbers have different digits. |
| `Decimal.DigitsInOrder` | src/helpers/numberHelpers.c:26-41 | Digits are read most significant first. |
| `Bytes.BigEndian` | src/helpers/sign_transfer_schedule.c:37-57 | Numbers of 1, 2, 4 and 8 bytes have their most significant byte first. |
| `Layouts.StatusWords` | src/globals.h:36-52 | The status words. |
| `Bytes.IsDisplayableText` | src/helpers/display_text.c:7-17 | The loop that refuses control bytes. |

## Left out

- Cryptography: SHA-256, Ed25519, BLS and certificate checks are uninterpreted; failures of the
  cryptographic library (`ERROR_FAILED_CX_OPERATION`) are not modelled.
- The decoder library's own code: its cursor is modelled from RFC 8949.
- Text of amounts, fees, percentages, Base58 addresses and plain hexadecimal: the numbers and bytes behind
  these rows are modelled, their formatting is not.
- Attribute names on the screen: the tag is modelled, the table of names is not.
- Screens, menus and page layout: only what a review offers (continue or sign) and its callbacks.
- The sender row, which the first review of a flow adds.
- INS 0x04, a credential deployed on its own: its first and last packets (`NEW_OR_EXISTING`) are outside the update flow.
- The handlers of a plain transfer, a transfer with memo, register data, transfer to public, delegation, module
  deployment, public information for the identity provider, application name and version.
- Legacy private-key export: the path parser excludes only the new-format export.
- The other instructions inside the whole application: `AppRuns` puts the seven signing flows above into it and lets the
  others do anything; `Latch` covers any handler.
- Time.SecondsToTm: at the extreme ends of the accepted range the source's `int` sum of years leaves its type; the model
  carries on with the exact sum, which the second range test then refuses.
- PltNormal.NormalReviewsDetermineBytes: the amount row is its significand and exponent; the text drops trailing zeros,
  so amounts of equal value and different exponent can read alike.
- Hex.ToPaginatedHex: past 2048 bytes the byte-wide line counter wraps and nothing is stated about the text; the
  callers pass 32 and 48 bytes.
- TrustedRuns.CertifiedReview: the TLV parser is a parameter, so the tags of the payload bytes are not modelled.
