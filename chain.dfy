/** The part of the ledger the instruction reads and writes: the launch
    records, the one token mint, the token accounts of that mint, and the
    history of `mint_to` calls the program has made. */
module Chain {
  import opened Errors
  import opened Pda

  /** Token amounts and the mint supply are `u64` on chain. */
  const U64_MAX: nat := 0xFFFF_FFFF_FFFF_FFFF

  /** The data of a launch account: exactly one field. */
  datatype Launch = Launch(launchSigner: Pubkey)

  datatype TokenAccount = TokenAccount(owner: Pubkey, amount: nat)

  datatype MintInfo = MintInfo(
    supply: nat,
    mintAuthority: Option<Pubkey>,
    freezeAuthority: Option<Pubkey>)

  /** One `mint_to` call: the destination, the account passed as its
      authority, the program address the signer seeds authorised, and the
      amount. */
  datatype MintEvent = MintEvent(to: Pubkey, authority: Pubkey, signer: Pubkey, amount: nat)

  /** What does not change between instructions: the runtime, the program's
      own id, and the address of the token mint. */
  datatype Env = Env(rt: Runtime, programId: Pubkey, tokenMint: Pubkey)

  /** The ledger as a value. */
  datatype State = State(
    launches: map<Pubkey, Launch>,
    mint: MintInfo,
    tokenAccounts: map<Pubkey, TokenAccount>,
    minted: seq<MintEvent>)

  /** Every on-chain amount fits in a `u64`. */
  ghost predicate WellFormed(s: State) {
    && s.mint.supply <= U64_MAX
    && forall k :: k in s.tokenAccounts ==> s.tokenAccounts[k].amount <= U64_MAX
  }

  class Ledger {
    const env: Env
    var launches: map<Pubkey, Launch>
    var supply: nat
    var mintAuthority: Option<Pubkey>
    var freezeAuthority: Option<Pubkey>
    var tokenAccounts: map<Pubkey, TokenAccount>
    var minted: seq<MintEvent>

    /** The ledger's current contents as a value. */
    function Snapshot(): State
      reads this
    {
      State(launches, MintInfo(supply, mintAuthority, freezeAuthority), tokenAccounts, minted)
    }

    ghost predicate Valid()
      reads this
    {
      WellFormed(Snapshot())
    }

    /** A ledger holding a mint and nothing else of the program's. */
    constructor (env: Env, supply: nat, mintAuthority: Option<Pubkey>, freezeAuthority: Option<Pubkey>)
      requires supply <= U64_MAX
      ensures Valid() && this.env == env
      ensures Snapshot() == State(map[], MintInfo(supply, mintAuthority, freezeAuthority), map[], [])
    {
      this.env := env;
      this.launches := map[];
      this.supply := supply;
      this.mintAuthority := mintAuthority;
      this.freezeAuthority := freezeAuthority;
      this.tokenAccounts := map[];
      this.minted := [];
    }

    /** Creates the launch account at `key` holding `data`. */
    method CreateLaunch(key: Pubkey, data: Launch)
      requires Valid()
      requires key !in launches
      modifies this
      ensures Valid()
      ensures Snapshot() == old(Snapshot()).(launches := old(launches)[key := data])
    {
      launches := launches[key := data];
    }

    /** Creates an empty token account of the mint at `key`, owned by `owner`. */
    method CreateTokenAccount(key: Pubkey, owner: Pubkey)
      requires Valid()
      requires key !in tokenAccounts
      modifies this
      ensures Valid()
      ensures Snapshot() == old(Snapshot()).(tokenAccounts := old(tokenAccounts)[key := TokenAccount(owner, 0)])
    {
      tokenAccounts := tokenAccounts[key := TokenAccount(owner, 0)];
    }

    /** Mints `amount` into the token account `to`: the supply and that
        account's balance grow by `amount`, and the call is recorded. */
    method MintTo(to: Pubkey, authority: Pubkey, signer: Pubkey, amount: nat)
      requires Valid()
      requires to in tokenAccounts
      requires supply + amount <= U64_MAX && tokenAccounts[to].amount + amount <= U64_MAX
      modifies this
      ensures Valid()
      ensures Snapshot() == old(Snapshot()).(
        mint := old(Snapshot()).mint.(supply := old(supply) + amount),
        tokenAccounts := old(tokenAccounts)[to := old(tokenAccounts)[to].(amount := old(tokenAccounts)[to].amount + amount)],
        minted := old(minted) + [MintEvent(to, authority, signer, amount)])
    {
      supply := supply + amount;
      tokenAccounts := tokenAccounts[to := tokenAccounts[to].(amount := tokenAccounts[to].amount + amount)];
      minted := minted + [MintEvent(to, authority, signer, amount)];
    }
  }
}
