# Anchor test programs: account handlers and their sizes

This project models, in Dafny, the three Anchor on-chain programs of the
repository. Each program keeps one kind of account record. Its instruction
handlers assign that record's fields in place and return `Ok(())` or a typed
error.

- **Ticket program** (`reallocation-error-test`). A `Ticket` account holds a
  buyer key and a `Vec<u32>` of ticket numbers. `initialize` and
  `initialize_large` create it with room for 100 or 1000 tickets.
  `add_tickets` appends the caller's tickets. `test_cpi_reallocation_limit`
  generates `ticket_count` tickets numbered from 1000, appends them, and then
  transfers 1000 lamports through the system program. `Ticket::space(n)` is
  the byte size to reserve for `n` tickets.
- **Serialization program** (`serialization-log-test`). A `TestAccount`
  holds a three-state status, a `u64`, a name, a flag and a `u128`.
  `initialize` fills every field. `update` decodes a status byte and rejects
  anything other than 0, 1 or 2 with `InvalidStatus` before it writes a field.
- **Lottery program** (`enum-comparison-test`). A `Lottery` holds a merchant,
  a status and a ticket price. `initialize` opens it as `Active`.
  `check_status` only reads the account and fails with `LotteryNotActive`
  unless the status is `Active`.

Files: `anchor.dfy` has the integer types, key type, result types and Borsh
field widths that the programs share. `ticket_program.dfy`,
`serialization_program.dfy` and `lottery_program.dfy` hold one program each.
Account records are classes that keep the bytes reserved for them in a
`dataLen` field fixed at creation. `add_tickets`, `test_cpi_reallocation_limit`
and `update` change an existing account and are methods with `modifies`
clauses. The `initialize` handlers are methods that create a fresh account and
set its fields. Each program's record size is defined from its fields
(`RecordSize`), and `StillFits` compares it with `dataLen`. The `*Scenario`
and `CheckAfterInitialize` methods state the outcome of each test's handler
sequence, and the model proves that outcome.

Where the comments in the source disagree with its code, the model follows the code:

- `initialize_large` reserves `Ticket::space(1000)` = 4044 bytes. The comment
  next to it speaks of 3000 tickets (~12KB).
- In `test_cpi_reallocation_limit`, the append commented "Step 2" runs before
  the transfer commented "Step 1". `Ticket.TestCpiReallocationLimit` appends
  first. Its post-state contains the new tickets whatever the transfer returns.
- The lottery program's comments say `LotteryStatus` lacks `PartialEq`, but
  the enum derives it. So `check_status` compiles and compares as written.
- The first ticket test expects `add_tickets` to fail. Nothing in the handler
  fails, so `Ticket.AddTickets` always returns `Pass`. `AddTicketsScenario`
  shows that after `[1, 2, 3]` plus `[4, 5]` the record still fits its 444
  bytes. Whatever failure the test observes comes from the runtime, not from
  this code.

## Model

| member | source | states |
|---|---|---|
| `TicketProgram.TicketsSizeLinear` | tests/reallocation-error-test/programs/reallocation-error-test/src/lib.rs:194-202 | an encoded `Vec<u32>` takes 4 bytes per element |
| `TicketProgram.Space` | tests/reallocation-error-test/programs/reallocation-error-test/src/lib.rs:198-203 | `Ticket::space(n)` = 8 + 32 + 4 + 4n equals the size of every record holding `n` tickets: discriminator, buyer key, length prefix and elements |
| `TicketProgram.SpaceStrictlyIncreasing` | tests/reallocation-error-test/programs/reallocation-error-test/src/lib.rs:198-203 | reserving room for more tickets reserves strictly more bytes |
| `TicketProgram.ReservedSpaces` | tests/reallocation-error-test/programs/reallocation-error-test/src/lib.rs:133-163 | `initialize` reserves 444 bytes and `initialize_large` reserves 4044 bytes |
| `TicketProgram.FitsIffWithinCapacity` | tests/reallocation-error-test/programs/reallocation-error-test/src/lib.rs:198-203 | a ticket list fits the space reserved for `c` tickets if and only if it holds at most `c` tickets |
| `TicketProgram.GeneratedTickets` | tests/reallocation-error-test/programs/reallocation-error-test/src/lib.rs:70-72 | the generated list has `ticket_count` elements and element `i` is `i + 1000` |
| `TicketProgram.SizeIncrease` | tests/reallocation-error-test/programs/reallocation-error-test/src/lib.rs:74 | `size_increase` is exactly the number of bytes the batch adds to the record, whatever list it is appended to |
| `TicketProgram.GeneratedGrowth` | tests/reallocation-error-test/programs/reallocation-error-test/src/lib.rs:74-89 | the size increase is 4 bytes per generated ticket, and the 10,240-byte warning fires if and only if at least 2561 tickets are generated |
| `TicketProgram.Ticket.Allocate` | tests/reallocation-error-test/programs/reallocation-error-test/src/lib.rs:130-136 | account creation yields an empty record with the requested bytes reserved |
| `TicketProgram.Initialize` | tests/reallocation-error-test/programs/reallocation-error-test/src/lib.rs:9-15 | reserves `space(100)`, sets `buyer` to the signer and the ticket list to exactly the given list, and succeeds |
| `TicketProgram.InitializeLarge` | tests/reallocation-error-test/programs/reallocation-error-test/src/lib.rs:18-24 | the same as `initialize` except that it reserves `space(1000)` |
| `TicketProgram.Ticket.AddTickets` | tests/reallocation-error-test/programs/reallocation-error-test/src/lib.rs:28-51 | the new list is the old list followed by the new tickets, the buyer is unchanged, and the handler always succeeds |
| `TicketProgram.Ticket.TestCpiReallocationLimit` | tests/reallocation-error-test/programs/reallocation-error-test/src/lib.rs:56-122 | appends the generated tickets before the transfer, so the append is in place whatever the transfer returns; reports a 4-bytes-per-ticket increase, which is exactly how much the record grows, and the warning branch; returns the result of a 1000-lamport transfer from signer to receiver |
| `TicketProgram.AddTicketsScenario` | tests/reallocation-error-test/tests/reallocation-error-test.ts:24-81 | initialising with `[1,2,3]` and adding `[4,5]` both succeed, give `[1,2,3,4,5]`, and the record still fits its reserved space |
| `TicketProgram.CpiLimitScenario` | tests/reallocation-error-test/tests/reallocation-error-test.ts:226-282 | starting from 10 tickets in the large account and generating 2561 gives 2571 tickets and a 10,244-byte increase over the warning threshold, and the record no longer fits the 4044 bytes reserved |
| `SerializationProgram.DecodeStatus` | tests/serialization-log-test/programs/serialization-log-test/src/lib.rs:64-68 | decoding succeeds if and only if the byte is 0, 1 or 2; every other byte fails with `InvalidStatus` |
| `SerializationProgram.StatusByte` | tests/serialization-log-test/programs/serialization-log-test/src/lib.rs:7-11 | each status's byte is its declaration position, and `update` decodes that byte back to the same status |
| `SerializationProgram.DecodedStatusByte` | tests/serialization-log-test/programs/serialization-log-test/src/lib.rs:64-67 | every accepted byte is the declaration position of the status it decodes to |
| `SerializationProgram.Updated` | tests/serialization-log-test/programs/serialization-log-test/src/lib.rs:64-82 | the effect of `update`: an out-of-range status byte leaves the account unchanged; otherwise the status is the one at that byte's position and the other four fields are the arguments |
| `SerializationProgram.UpdateOverwritesAll` | tests/serialization-log-test/programs/serialization-log-test/src/lib.rs:64-81 | a valid update gives the same account whatever the account held before |
| `SerializationProgram.UpdateIdempotent` | tests/serialization-log-test/programs/serialization-log-test/src/lib.rs:58-91 | applying the same update twice gives the same account as applying it once |
| `SerializationProgram.FitsIffNameWithinLimit` | tests/serialization-log-test/programs/serialization-log-test/src/lib.rs:94-101 | the reserved space is 138 bytes, and a record laid out as status, number, name, active, amount fits it if and only if the name has at most 100 bytes |
| `SerializationProgram.TestAccount.Allocate` | tests/serialization-log-test/programs/serialization-log-test/src/lib.rs:96-101 | account creation yields the zero record with the requested bytes reserved |
| `SerializationProgram.TestAccount.Update` | tests/serialization-log-test/programs/serialization-log-test/src/lib.rs:58-91 | fails with `InvalidStatus` exactly for a status byte above 2 and then writes nothing; otherwise sets every field to the decoded arguments |
| `SerializationProgram.Initialize` | tests/serialization-log-test/programs/serialization-log-test/src/lib.rs:28-55 | sets status `Active` and `active` true, sets number, name and amount to the arguments, reserves 138 bytes on the account, and succeeds |
| `SerializationProgram.UpdateScenario` | tests/serialization-log-test/tests/serialization-log-test.ts:46-76 | initialising with (100, "Initial Name", 5000000) and then updating with (1, 200, "Updated Name", false, 10000000) both succeed and leave a `Completed` account with the updated fields that still fits its space |
| `LotteryProgram.EveryRecordFits` | tests/enum-comparison-test/programs/enum-comparison-test/src/lib.rs:67-71 | every lottery record, whatever its merchant, status and price, takes exactly the 49 reserved bytes: discriminator, merchant, status and price |
| `LotteryProgram.Lottery.Allocate` | tests/enum-comparison-test/programs/enum-comparison-test/src/lib.rs:67-72 | account creation yields the zero record with the requested bytes reserved |
| `LotteryProgram.Initialize` | tests/enum-comparison-test/programs/enum-comparison-test/src/lib.rs:39-45 | sets the merchant to the user, the status to `Active` and the price to the argument, reserves 49 bytes on the account, and succeeds |
| `LotteryProgram.CheckStatus` | tests/enum-comparison-test/programs/enum-comparison-test/src/lib.rs:49-62 | succeeds if and only if the status is `Active`, otherwise fails with `LotteryNotActive`; it has no `modifies` clause, so it cannot change the account |
| `LotteryProgram.CheckAfterInitialize` | tests/enum-comparison-test/tests/enum-comparison-test.ts:26-69 | on a lottery this program initialised, `check_status` always succeeds, and the record fits its reserved bytes |

## Left out

- The TypeScript tests' I/O is left out: transaction submission, airdrops, confirmation waits, timers and log scraping. Only their handler call sequences appear, as the scenario methods.
- Anchor's machinery is library code and is not part of this model. That covers account creation and rent, PDA seeds and bumps, discriminator values, and Borsh encoding and decoding. Creation appears only as the zero-filled record (`Allocate`) and the number of bytes reserved.
- Solana runtime behaviour is left out: heap reallocation, `Vec::capacity`, the 10 KiB realloc limit on inner instructions, and the serialization failure (`AccountDidNotSerialize`, 3004) when a record outgrows its space. The model states only whether the record still fits (`Fits`, `StillFits`). It also leaves out the rollback of a failed transaction.
- The system-program transfer is a foreign call. It is a parameter `invoke` that receives the requested `Transfer` and does not touch the ticket record. Lamport balances are not modelled.
- `msg!` logging is left out, including the KB figure printed as a float and the `data_len` and length read only for logging. The one logged condition with a branch, the 10,240-byte warning, is the `overLimit` result.
- `Pubkey` is a 32-byte value with no further structure, and key generation is left out.
- `String` fields are their UTF-8 bytes (`seq<U8>`), because the space formulas count bytes. Character-level content is not modelled.
- TestCpiReallocationLimit: requires `ticket_count <= 2^32 - 1000`. Beyond that, `i + 1000` overflows `u32`. Whether that panics or wraps depends on the build profile, which is not part of this model.
- `Ticket::space` takes a `u32` and computes in `usize`. On the 64-bit target `n * 4` cannot overflow, so the model uses unbounded integers.
