/** Program-derived addresses as the runtime computes them. The hashing and
    the on-curve test are not modelled: the two runtime calls are function
    values, so each is deterministic, and `Consistent` states the one fact
    the program relies on — appending the bump that `find` returned to the
    seeds makes `create` give back the same address. */
module Pda {
  import opened Errors

  newtype u8 = x: int | 0 <= x < 256

  /** A 32-byte account address; `key.as_ref()` is the key itself. */
  type Pubkey = b: seq<u8> | |b| == 32 witness seq(32, _ => 0 as u8)

  type Seed = seq<u8>

  /** `Pubkey::find_program_address` and `Pubkey::create_program_address`,
      together with the two SPL program ids the associated account
      derivation uses. */
  datatype Runtime = Runtime(
    find: (seq<Seed>, Pubkey) -> (Pubkey, u8),
    create: (seq<Seed>, Pubkey) -> Option<Pubkey>,
    tokenProgramId: Pubkey,
    associatedTokenProgramId: Pubkey)

  /** The seeds plus the bump `find` returned re-derive, under `create`,
      the address `find` returned. */
  ghost predicate Consistent(rt: Runtime) {
    forall seeds: seq<Seed>, programId: Pubkey ::
      rt.create(seeds + [[rt.find(seeds, programId).1]], programId)
        == Some(rt.find(seeds, programId).0)
  }

  /** The address of the associated token account of (`owner`, `mint`). */
  function AssociatedTokenAddress(rt: Runtime, owner: Pubkey, mint: Pubkey): Pubkey {
    rt.find([owner, rt.tokenProgramId, mint], rt.associatedTokenProgramId).0
  }

  /** The signer seeds built from a derivation's seeds and its bump. */
  function WithBump(seeds: seq<Seed>, bump: u8): seq<Seed> {
    seeds + [[bump]]
  }

  /** Signing with the seeds and bump of a derivation authorises exactly the
      derived address. */
  lemma SignerSeedsRederive(rt: Runtime, seeds: seq<Seed>, programId: Pubkey)
    requires Consistent(rt)
    ensures rt.create(WithBump(seeds, rt.find(seeds, programId).1), programId)
              == Some(rt.find(seeds, programId).0)
  {
  }
}
