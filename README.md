# initialize_launch, modelled in Dafny

This project models the `initialize_launch` instruction of the
`solana_security_audit` Anchor program, together with the no-op
`initialize`. `initialize_launch` creates the launch account for a token
mint and derives the launch signer, a program-derived address (PDA) built
from `["launch_signer", launch]`. It then mints 1,000,000,000,000 base
units of the mint into the launch signer's vault, signing with the PDA's
seeds. The security point is the equality gate. The program mints only if
the caller's `launch_signer` account is the re-derived PDA; otherwise it
fails with `InvalidMintAuthority`.

The ledger the instruction works on is a class, `Chain.Ledger`. It holds the
launch records, the one token mint (supply, mint authority, freeze
authority), the token accounts of that mint, and a history of the `mint_to`
calls the program made. The history lets the model state "nothing is minted
unless …" as a property of the ledger. The runtime's address derivation is a
value, `Pda.Runtime`, of two function-typed fields:

- `find` stands for `find_program_address`;
- `create` stands for `create_program_address`.

Derivation is therefore deterministic by construction. `Pda.Consistent` is
the one fact the program relies on: re-deriving with the bump that `find`
returned gives the same address.

Modules follow the source:

- `Errors` models `errors.rs`.
- `Instructions` models `instructions/initializeLaunch.rs`: the account
  constraints, `validate` and `handle`.
- `Program` models `lib.rs`: the dispatch order and the `Launch` record's use.
- `Pda` and `Chain` model the runtime and the ledger the program calls into.

Each method that changes the ledger is proved against a pure specification
function: `Instructions.Handle` against `Instructions.HandleSpec`, and
`Program.InitializeLaunch` against `Program.Execute`. The lemmas at the end
of `Program` are about sequences of calls (`Program.Run`).

Some comments in `initializeLaunch.rs` and some test narration say the
equality check is missing. The code has the check
(`require_keys_eq!` at `initializeLaunch.rs:130-134`), so the model follows
the code. The `Launch` record holds only `launch_signer`: it has no creator,
vault or status field, and the program has no lookup operation of its own.

## Model

| member | source | states |
|---|---|---|
| `Errors.Code` | programs/solana-security-audit/src/errors.rs:3-13 | each custom error's code is 6000 plus its position in the declaration order (`SupplyNonZero`, `FreezeAuthoritySet`, `InvalidDecimals`, `InvalidMintAuthority`), and decoding that code gives the error back |
| `Errors.FromCode` | programs/solana-security-audit/src/errors.rs:3-13 | exactly the codes 6000-6003 decode, each to the error declared at that position |
| `Pda.SignerSeedsRederive` | programs/solana-security-audit/src/instructions/initializeLaunch.rs:95-115 | assumed of the runtime (it is `Pda.Consistent` at one pair of seeds and program id): signing with the derivation seeds plus the returned bump authorises exactly the derived address |
| `Chain.Ledger.CreateLaunch` | programs/solana-security-audit/src/instructions/initializeLaunch.rs:103-105 | the launch account appears holding the given record; nothing else changes |
| `Chain.Ledger.CreateTokenAccount` | programs/solana-security-audit/src/instructions/initializeLaunch.rs:35-41 | the vault appears empty, owned by the given authority; nothing else changes |
| `Chain.Ledger.MintTo` | programs/solana-security-audit/src/instructions/initializeLaunch.rs:144-155 | supply and the destination balance grow by the amount, the call is recorded, and amounts stay within u64 |
| `Instructions.TryAccounts` | programs/solana-security-audit/src/instructions/initializeLaunch.rs:12-49 | the launch lives at the PDA of `["launch", mint]` and the vault at the associated account of (caller's `launch_signer`, mint); either already existing fails with `AccountAlreadyInUse` |
| `Instructions.Validate` | programs/solana-security-audit/src/instructions/initializeLaunch.rs:52-72 | succeeds exactly when supply is 0 and no freeze authority is set; nonzero supply gives `SupplyNonZero` even when a freeze authority is set too |
| `Instructions.HandleSpec` | programs/solana-security-audit/src/instructions/initializeLaunch.rs:74-160 | a caller account other than the derived signer gives `InvalidMintAuthority` with the ledger unchanged; on success the record holds the derived signer, exactly one mint of `AVAILABLE_TOKENS` goes to the vault, and that mint is signed by the address `create` gives for the signer seeds — `["launch_signer", launch]` followed by the bump `find` returned — which under `Pda.Consistent` is the caller's account |
| `Instructions.Handle` | programs/solana-security-audit/src/instructions/initializeLaunch.rs:74-160 | the in-place handler leaves the ledger and result `HandleSpec` describes, keeping every amount within u64 |
| `Program.Initialize` | programs/solana-security-audit/src/lib.rs:15-18 | always returns Ok and has no ledger to modify |
| `Program.Execute` | programs/solana-security-audit/src/lib.rs:20-26 | constraints, then `validate`, then `handle`; a `validate` error is returned as-is with no write; `SupplyNonZero`/`FreezeAuthoritySet` come before `InvalidMintAuthority`; any error leaves the ledger unchanged; success implies the caller named the derived signer, and supply and vault both hold `AVAILABLE_TOKENS` |
| `Program.InitializeLaunch` | programs/solana-security-audit/src/lib.rs:20-26 | the instruction on the ledger object produces exactly `Execute`'s result and ledger |
| `Program.FreshMintLaunch` | tests/solana-security-audit.ts:323-351 | on a fresh zero-supply mint whose mint authority has been handed to the derived signer, naming the derived signer mints `AVAILABLE_TOKENS` into its vault; any other account is rejected with `InvalidMintAuthority` and nothing changes |
| `Program.SecondLaunchFails` | programs/solana-security-audit/src/instructions/initializeLaunch.rs:14-21 | after a successful launch, a second one for the same mint fails with `AccountAlreadyInUse` and changes nothing |
| `Program.RunAfterLaunchIsInert` | programs/solana-security-audit/src/instructions/initializeLaunch.rs:14-21 | once the launch account exists, no sequence of calls changes the ledger |
| `Program.RunMintsAtMostOnce` | programs/solana-security-audit/src/instructions/initializeLaunch.rs:14-155 | because the launch `init` (lines 14-21) refuses a second launch and `handle` mints once (lines 144-155): for the ledger's one mint, over any sequence of this program's calls, the program mints at most once, and the supply grows by exactly what it minted |
| `Program.RunKeepsSecure` | programs/solana-security-audit/src/instructions/initializeLaunch.rs:130-155 | over any sequence of calls, every mint is to the vault of the re-derived launch signer, that signer is the one stored in the launch record, and it is both the `mint_to` authority and the signer the seeds authorised |

## Left out

- Internals of `find_program_address` and `create_program_address` are not modelled: hashing, the off-curve test and the bump scan. Both are opaque functions, constrained only by `Pda.Consistent`.
- The panic of `find_program_address` when no bump yields an off-curve address is not modelled. The runtime aborts the transaction in that case, and its chance is negligible.
- The token program's own checks inside `mint_to` are external and not modelled: the mint-authority and signer check, and the overflow check. The mint is a ledger update.
- `Instructions.Handle`: requires the mint supply to be zero. `validate` establishes this before `handle` runs, and it keeps the token program's overflow check out of the model.
- Anchor's exact error codes for a failed `init` are not modelled. They come from the system and associated-token programs; the model reports one `AccountAlreadyInUse`.
- The launch and vault addresses are computed from their derivations, not supplied by the caller. A transaction naming other addresses is rejected by the framework before the instruction runs, and that rejection is not modelled.
- `InvalidSeeds` is the runtime's rejection of signer seeds that make no program address. `Pda.Consistent` rules it out; it is modelled only as an error path.
- Account space, rent, the `creator` payer's lamports and the account's 8-byte discriminator are not modelled.
- `msg!` logging is not modelled, nor the `#[msg]` texts attached to the custom errors, which only feed that output.
- The decimals check is not modelled because the code never performs it. `InvalidDecimals` is declared but never raised.
- The commented-out seeds constraint on `launch_signer` and other commented-out code are not modelled.
- Concurrency is not modelled. The runtime serialises transactions; sequences of calls are modelled by `Program.Run`.
- Partial writes are not modelled. The instruction is atomic, so any error leaves the whole ledger unchanged. Account data set by `set_inner` reaches the ledger only when the handler succeeds.
- The test file's RPC calls, airdrops and log scraping are not modelled.
